/** The case state machine's decisions: pure functions of one case row and a
    clock reading. The writes that act on them are in `Transactions`. */
module CaseLifecycle {
  import opened Vocabulary
  import opened Tables

  const REOPEN_WINDOW: Time := 30 * DAY
  const AUTO_STALE_INACTIVITY: Time := 14 * DAY
  const RESOLUTION_PROPOSAL_WINDOW: Time := 48 * HOUR

  datatype Leg = TenantConfirmedLeg | AutoStaleLeg

  function ReasonOf(leg: Leg): ResolvedReason {
    match leg case TenantConfirmedLeg => TenantConfirmed case AutoStaleLeg => AutoStale
  }

  predicate InOpenFamily(s: CaseStatus) { s != Resolved }

  predicate AutoStaleEligible(s: CaseStatus) {
    s == Open || s == AwaitingTenant || s == Reopened
  }

  /** The transition one case is due at `now`, if any: a pending resolution
      decides alone, and only a case without one can go stale. */
  function TimeTransition(c: Case, now: Time): Option<Leg> {
    if !InOpenFamily(c.status) then None
    else if c.pendingResolvedAt.Some? then
      if now >= c.pendingResolvedAt.value then Some(TenantConfirmedLeg) else None
    else if !AutoStaleEligible(c.status) then None
    else if now - c.lastActivityAt >= AUTO_STALE_INACTIVITY then Some(AutoStaleLeg)
    else None
  }

  /** The WHERE clause of each leg's UPDATE, read against the live row. */
  predicate SweepGuard(c: Case, leg: Leg, at: Time) {
    match leg
    case TenantConfirmedLeg => c.pendingResolvedAt.Some? && c.pendingResolvedAt.value <= at
    case AutoStaleLeg =>
      c.pendingResolvedAt.None? && AutoStaleEligible(c.status) && c.lastActivityAt <= at - AUTO_STALE_INACTIVITY
  }

  /** The row a resolve writes, whoever resolves. */
  function ResolvedRow(c: Case, reason: ResolvedReason, at: Time): Case {
    c.(status := Resolved, resolvedReason := Some(reason), resolvedAt := Some(at), pendingResolvedAt := None,
       lastActivityAt := at)
  }

  /** A message for a resolved case reopens it up to and including 30 days later. */
  predicate ReopensSameCase(resolvedAt: Time, now: Time) {
    now - resolvedAt <= REOPEN_WINDOW
  }

  function ReopenedRow(c: Case, now: Time): Case {
    c.(status := Reopened, resolvedReason := None, resolvedAt := None, pendingResolvedAt := None, lastActivityAt := now)
  }

  /** A message on an open case: activity is bumped, and any pending resolution is
      contradicted whatever the message says. */
  function TouchedRow(c: Case, now: Time): Case {
    c.(lastActivityAt := now, pendingResolvedAt := None)
  }

  /** When a case is due, in seconds and status names. Tenant-confirmed: it is not resolved
      and its pending instant has come. Auto-stale: it is open, awaiting the tenant or
      reopened, nothing is pending, and nothing happened on it for 14 days. */
  predicate DueFor(c: Case, leg: Leg, now: Time) {
    match leg
    case TenantConfirmedLeg => c.status != Resolved && c.pendingResolvedAt.Some? && c.pendingResolvedAt.value <= now
    case AutoStaleLeg =>
      && (c.status == Open || c.status == AwaitingTenant || c.status == Reopened)
      && c.pendingResolvedAt.None? && now - c.lastActivityAt >= 14 * 24 * 3600
  }

  lemma DueWhen(c: Case, leg: Leg, now: Time)
    ensures TimeTransition(c, now) == Some(leg) <==> DueFor(c, leg, now)
  {
  }

  /** So a case that waits for its landlord, with no resolution pending, is never due, at
      any time and however long nothing happens on it. */
  lemma BacklogNeverDue(c: Case, now: Time, leg: Leg, at: Time)
    requires c.status == AwaitingApproval && c.pendingResolvedAt.None?
    ensures TimeTransition(c, now) == None && !SweepGuard(c, leg, at)
  {
    DueWhen(c, TenantConfirmedLeg, now);
    DueWhen(c, AutoStaleLeg, now);
  }

  /** The live row meets its leg's guard exactly when the decision, taken on that
      live row, is the same leg, provided a resolved row carries no pending
      resolution: the tenant-confirmed guard does not look at the status. */
  lemma GuardIsDecision(c: Case, leg: Leg, at: Time)
    ensures TimeTransition(c, at) == Some(leg) ==> SweepGuard(c, leg, at)
    ensures SweepGuard(c, leg, at) && (c.status == Resolved ==> c.pendingResolvedAt.None?) ==>
              TimeTransition(c, at) == Some(leg)
  {
  }

  /** Without that invariant the tenant-confirmed leg would fire on a case that is
      already resolved, and overwrite who resolved it. */
  lemma GuardNeedsInvariant(c: Case, at: Time)
    requires c.status == Resolved
    ensures SweepGuard(c, TenantConfirmedLeg, at) <==> c.pendingResolvedAt.Some? && c.pendingResolvedAt.value <= at
    ensures TimeTransition(c, at) == None
  {
  }
}
