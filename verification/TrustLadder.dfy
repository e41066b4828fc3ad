/** The trust ladder: `trust_metrics` rows, the writes that move them, and what
    the ladder guarantees over any history of those writes.

    The log is a history variable. The source keeps no such log; it records what
    each write did, so that "consecutive", "since the last revoke" and "how many
    times" can be stated about a whole run. */
module TrustLadder {
  import opened Vocabulary

  type Key = (PropertyId, Severity)

  datatype Metrics = Metrics(
    landlord: LandlordId,
    clean: nat,
    edited: nat,
    rejections: nat,
    consecutiveClean: nat,
    unlocked: bool,
    unlockedAt: Option<Time>,
    revokedAt: Option<Time>)

  datatype TrustEvent =
    | CleanSend(key: Key)
    | EditedSend(key: Key)
    | Rejection(key: Key)
    | Unlock(property: PropertyId)
    | Revoke(keys: set<Key>)

  datatype Ledger = Ledger(rows: map<Key, Metrics>, log: seq<TrustEvent>)

  const EMPTY_LEDGER := Ledger(map[], [])

  // ----- the writes -----------------------------------------------------------

  /** The upsert every recorded send makes, clean or edited. */
  function UpsertSend(l: Ledger, landlord: LandlordId, key: Key, edited: bool): Ledger {
    var (dClean, dEdited) := if edited then (0, 1) else (1, 0);
    var row :=
      if key in l.rows then
        var m := l.rows[key];
        m.(clean := m.clean + dClean, edited := m.edited + dEdited,
           consecutiveClean := if edited then 0 else m.consecutiveClean + 1)
      else
        Metrics(landlord, dClean, dEdited, 0, if edited then 0 else 1, false, None, None);
    Ledger(l.rows[key := row], l.log + [if edited then EditedSend(key) else CleanSend(key)])
  }

  predicate CanGraduate(l: Ledger, property: PropertyId, threshold: nat) {
    var key := (property, Routine);
    key in l.rows && l.rows[key].consecutiveClean >= threshold && !l.rows[key].unlocked
  }

  /** The graduation UPDATE, attempted after a clean routine send only. */
  function Graduate(l: Ledger, property: PropertyId, threshold: nat, now: Time): Ledger {
    if CanGraduate(l, property, threshold) then
      var key := (property, Routine);
      Ledger(l.rows[key := l.rows[key].(unlocked := true, unlockedAt := Some(now), revokedAt := None)],
             l.log + [Unlock(property)])
    else l
  }

  /** Everything a recorded send does to the ladder. A case that was never
      classified has no key, so nothing is recorded. */
  function RecordSend(l: Ledger, landlord: LandlordId, property: PropertyId, severity: Option<Severity>,
                      edited: bool, threshold: nat, now: Time): Ledger {
    match severity
    case None => l
    case Some(sev) =>
      var l' := UpsertSend(l, landlord, (property, sev), edited);
      if sev == Routine && !edited then Graduate(l', property, threshold, now) else l'
  }

  /** The upsert a rejection makes. */
  function RecordRejection(l: Ledger, landlord: LandlordId, property: PropertyId,
                           severity: Option<Severity>): Ledger {
    match severity
    case None => l
    case Some(sev) =>
      var key := (property, sev);
      var row :=
        if key in l.rows then
          var m := l.rows[key];
          m.(rejections := m.rejections + 1, consecutiveClean := 0)
        else
          Metrics(landlord, 0, 0, 1, 0, false, None, None);
      Ledger(l.rows[key := row], l.log + [Rejection(key)])
  }

  function Revoked(m: Metrics, now: Time): Metrics {
    m.(unlocked := false, revokedAt := Some(now), consecutiveClean := 0)
  }

  /** Overwrite every row of `keys`, as one UPDATE. */
  function RevokeKeys(l: Ledger, keys: set<Key>, now: Time): Ledger
    requires keys <= l.rows.Keys
  {
    Ledger(map k | k in l.rows :: if k in keys then Revoked(l.rows[k], now) else l.rows[k],
           l.log + [Revoke(keys)])
  }

  function PropertyRevokeKeys(l: Ledger, landlord: LandlordId, property: PropertyId): set<Key> {
    var key := (property, Routine);
    if key in l.rows && l.rows[key].landlord == landlord && l.rows[key].unlocked then {key} else {}
  }

  function LandlordRevokeKeys(l: Ledger, landlord: LandlordId): set<Key> {
    set k | k in l.rows && l.rows[k].landlord == landlord && l.rows[k].unlocked
  }

  /** The eligibility read that gates auto-send. */
  predicate AutonomyUnlocked(l: Ledger, property: PropertyId) {
    var key := (property, Routine);
    key in l.rows && l.rows[key].unlocked && l.rows[key].revokedAt == None
  }

  // ----- what each write does to the counters -----------------------------------

  /** The row a write finds; one that does not exist yet has counted nothing. */
  function RowAt(l: Ledger, landlord: LandlordId, key: Key): Metrics {
    if key in l.rows then l.rows[key] else Metrics(landlord, 0, 0, 0, 0, false, None, None)
  }

  predicate OthersKept(a: Ledger, b: Ledger, key: Key) {
    b.rows.Keys == a.rows.Keys + {key} && forall k :: k in a.rows && k != key ==> b.rows[k] == a.rows[k]
  }

  /** An edited send is counted as edited, ends the clean run and changes neither the clean
      count nor the lock. */
  predicate CountsEdited(l: Ledger, l': Ledger, landlord: LandlordId, key: Key) {
    && OthersKept(l, l', key) && l'.log == l.log + [EditedSend(key)]
    && var was, row := RowAt(l, landlord, key), l'.rows[key];
       row.edited == was.edited + 1 && row.consecutiveClean == 0 && row.clean == was.clean && row.unlocked == was.unlocked
       && row.unlockedAt == was.unlockedAt && row.revokedAt == was.revokedAt && row.rejections == was.rejections
       && row.landlord == was.landlord
  }

  /** A clean send is counted as clean and prolongs the run. It unlocks the property, and
      forgets an earlier revoke, exactly when the case is routine and the run reaches the
      threshold while locked. */
  predicate CountsClean(l: Ledger, l': Ledger, landlord: LandlordId, key: Key, threshold: nat, now: Time) {
    var was := RowAt(l, landlord, key);
    var unlocks := key.1 == Routine && !was.unlocked && was.consecutiveClean + 1 >= threshold;
    && OthersKept(l, l', key)
    && l'.log == l.log + [CleanSend(key)] + (if unlocks then [Unlock(key.0)] else [])
    && var row := l'.rows[key];
       row.clean == was.clean + 1 && row.consecutiveClean == was.consecutiveClean + 1 && row.edited == was.edited
       && row.rejections == was.rejections && row.landlord == was.landlord && row.unlocked == (was.unlocked || unlocks)
       && row.unlockedAt == (if unlocks then Some(now) else was.unlockedAt)
       && row.revokedAt == (if unlocks then None else was.revokedAt)
  }

  /** A rejection is counted and ends the run; it does not lock. */
  predicate CountsRejection(l: Ledger, l': Ledger, landlord: LandlordId, key: Key) {
    && OthersKept(l, l', key) && l'.log == l.log + [Rejection(key)]
    && var was, row := RowAt(l, landlord, key), l'.rows[key];
       row.rejections == was.rejections + 1 && row.consecutiveClean == 0 && row.clean == was.clean
       && row.edited == was.edited && row.unlocked == was.unlocked && row.unlockedAt == was.unlockedAt
       && row.revokedAt == was.revokedAt && row.landlord == was.landlord
  }

  /** A send on a case that was never classified counts nothing. */
  lemma SendIsCounted(l: Ledger, landlord: LandlordId, property: PropertyId, severity: Option<Severity>, edited: bool,
                      threshold: nat, now: Time)
    ensures var l' := RecordSend(l, landlord, property, severity, edited, threshold, now);
            match severity
            case None => l' == l
            case Some(sev) =>
              if edited then CountsEdited(l, l', landlord, (property, sev))
              else CountsClean(l, l', landlord, (property, sev), threshold, now)
  {
  }

  lemma RejectionIsCounted(l: Ledger, landlord: LandlordId, property: PropertyId, severity: Option<Severity>)
    ensures var l' := RecordRejection(l, landlord, property, severity);
            match severity
            case None => l' == l
            case Some(sev) => CountsRejection(l, l', landlord, (property, sev))
  {
  }

  // ----- measures of a history ------------------------------------------------

  /** Clean sends on `key` since anything last broke its run: an edited send, a
      rejection, or a revoke that reached it. */
  function Streak(log: seq<TrustEvent>, key: Key): nat {
    if log == [] then 0
    else
      var before := Streak(log[..|log| - 1], key);
      match log[|log| - 1]
      case CleanSend(k) => if k == key then before + 1 else before
      case EditedSend(k) => if k == key then 0 else before
      case Rejection(k) => if k == key then 0 else before
      case Unlock(_) => before
      case Revoke(ks) => if key in ks then 0 else before
  }

  function CleanSends(log: seq<TrustEvent>, key: Key): nat {
    if log == [] then 0
    else CleanSends(log[..|log| - 1], key) + (if log[|log| - 1] == CleanSend(key) then 1 else 0)
  }

  function EditedSends(log: seq<TrustEvent>, key: Key): nat {
    if log == [] then 0
    else EditedSends(log[..|log| - 1], key) + (if log[|log| - 1] == EditedSend(key) then 1 else 0)
  }

  function Rejections(log: seq<TrustEvent>, key: Key): nat {
    if log == [] then 0
    else Rejections(log[..|log| - 1], key) + (if log[|log| - 1] == Rejection(key) then 1 else 0)
  }

  function Unlocks(log: seq<TrustEvent>, property: PropertyId): nat {
    if log == [] then 0
    else Unlocks(log[..|log| - 1], property) + (if log[|log| - 1] == Unlock(property) then 1 else 0)
  }

  predicate RevokesProperty(e: TrustEvent, property: PropertyId) {
    e.Revoke? && (property, Routine) in e.keys
  }

  function Revokes(log: seq<TrustEvent>, property: PropertyId): nat {
    if log == [] then 0
    else Revokes(log[..|log| - 1], property) + (if RevokesProperty(log[|log| - 1], property) then 1 else 0)
  }

  /** `threshold` for every unlock so far. */
  function Spent(log: seq<TrustEvent>, property: PropertyId, threshold: nat): nat {
    if log == [] then 0
    else Spent(log[..|log| - 1], property, threshold) + (if log[|log| - 1] == Unlock(property) then threshold else 0)
  }

  lemma {:induction false} SpentIsProduct(log: seq<TrustEvent>, property: PropertyId, threshold: nat)
    ensures Spent(log, property, threshold) == threshold * Unlocks(log, property)
  {
    if log != [] {
      SpentIsProduct(log[..|log| - 1], property, threshold);
      var u := Unlocks(log[..|log| - 1], property);
      assert threshold * (u + 1) == threshold * u + threshold;
    }
  }

  // ----- the invariant --------------------------------------------------------

  predicate UnlockedNow(l: Ledger, property: PropertyId) {
    (property, Routine) in l.rows && l.rows[(property, Routine)].unlocked
  }

  /** A row counts exactly the clean run the history shows, and only a routine,
      unrevoked row is unlocked. */
  ghost predicate RowInv(l: Ledger, key: Key) {
    && Streak(l.log, key) == (if key in l.rows then l.rows[key].consecutiveClean else 0)
    && (key in l.rows && l.rows[key].unlocked ==>
          key.1 == Routine && l.rows[key].revokedAt == None && l.rows[key].unlockedAt.Some?)
  }

  /** Unlocks and effective revokes alternate, and every unlock was paid for. */
  ghost predicate PropertyInv(l: Ledger, p: PropertyId, threshold: nat) {
    && Unlocks(l.log, p) == Revokes(l.log, p) + (if UnlockedNow(l, p) then 1 else 0)
    && Spent(l.log, p, threshold) + (if UnlockedNow(l, p) then 0 else Streak(l.log, (p, Routine)))
         <= CleanSends(l.log, (p, Routine))
  }

  /** At every unlock in the history the property was locked and its current run
      of clean sends, which no revoke, edit or rejection interrupts, had reached
      the threshold. */
  ghost predicate UnlocksEarned(log: seq<TrustEvent>, threshold: nat) {
    forall i :: 0 <= i < |log| && log[i].Unlock? ==>
      var p := log[i].property;
      Streak(log[..i], (p, Routine)) >= threshold && Unlocks(log[..i], p) == Revokes(log[..i], p)
  }

  ghost predicate LedgerInv(l: Ledger, threshold: nat) {
    && (forall k: Key :: RowInv(l, k))
    && (forall p: PropertyId :: PropertyInv(l, p, threshold))
    && UnlocksEarned(l.log, threshold)
  }

  lemma EmptyLedgerInv(threshold: nat)
    ensures LedgerInv(EMPTY_LEDGER, threshold)
  {
  }

  lemma EarnedExtend(log: seq<TrustEvent>, e: TrustEvent, threshold: nat)
    requires UnlocksEarned(log, threshold)
    requires e.Unlock? ==> Streak(log, (e.property, Routine)) >= threshold
                           && Unlocks(log, e.property) == Revokes(log, e.property)
    ensures UnlocksEarned(log + [e], threshold)
  {
    var log' := log + [e];
    forall i | 0 <= i < |log'| && log'[i].Unlock?
      ensures var p := log'[i].property;
              Streak(log'[..i], (p, Routine)) >= threshold && Unlocks(log'[..i], p) == Revokes(log'[..i], p)
    {
      assert log'[..i] == log[..i];
      if i == |log| { assert log[..i] == log; }
    }
  }

  lemma UpsertSendInv(l: Ledger, landlord: LandlordId, key: Key, edited: bool, threshold: nat)
    requires LedgerInv(l, threshold)
    ensures LedgerInv(UpsertSend(l, landlord, key, edited), threshold)
  {
    var l' := UpsertSend(l, landlord, key, edited);
    var e := l'.log[|l.log|];
    assert l'.log[..|l.log|] == l.log;
    forall k: Key ensures RowInv(l', k) { assert RowInv(l, k); }
    forall p: PropertyId ensures PropertyInv(l', p, threshold) {
      assert PropertyInv(l, p, threshold);
      assert RowInv(l, (p, Routine));
    }
    EarnedExtend(l.log, e, threshold);
  }

  lemma GraduateInv(l: Ledger, property: PropertyId, threshold: nat, now: Time)
    requires LedgerInv(l, threshold)
    ensures LedgerInv(Graduate(l, property, threshold, now), threshold)
  {
    var l' := Graduate(l, property, threshold, now);
    if CanGraduate(l, property, threshold) {
      assert l'.log[..|l.log|] == l.log;
      assert RowInv(l, (property, Routine)) && PropertyInv(l, property, threshold);
      forall k: Key ensures RowInv(l', k) { assert RowInv(l, k); }
      forall p: PropertyId ensures PropertyInv(l', p, threshold) {
        assert PropertyInv(l, p, threshold);
      }
      EarnedExtend(l.log, Unlock(property), threshold);
    }
  }

  lemma RecordSendInv(l: Ledger, landlord: LandlordId, property: PropertyId, severity: Option<Severity>,
                      edited: bool, threshold: nat, now: Time)
    requires LedgerInv(l, threshold)
    ensures LedgerInv(RecordSend(l, landlord, property, severity, edited, threshold, now), threshold)
  {
    if severity.Some? {
      UpsertSendInv(l, landlord, (property, severity.value), edited, threshold);
      GraduateInv(UpsertSend(l, landlord, (property, severity.value), edited), property, threshold, now);
    }
  }

  lemma RecordRejectionInv(l: Ledger, landlord: LandlordId, property: PropertyId,
                           severity: Option<Severity>, threshold: nat)
    requires LedgerInv(l, threshold)
    ensures LedgerInv(RecordRejection(l, landlord, property, severity), threshold)
  {
    if severity.Some? {
      var l' := RecordRejection(l, landlord, property, severity);
      assert l'.log[..|l.log|] == l.log;
      forall k: Key ensures RowInv(l', k) { assert RowInv(l, k); }
      forall p: PropertyId ensures PropertyInv(l', p, threshold) {
        assert PropertyInv(l, p, threshold);
        assert RowInv(l, (p, Routine));
      }
      EarnedExtend(l.log, Rejection((property, severity.value)), threshold);
    }
  }

  lemma RevokeKeysInv(l: Ledger, keys: set<Key>, now: Time, threshold: nat)
    requires LedgerInv(l, threshold)
    requires forall k :: k in keys ==> k in l.rows && l.rows[k].unlocked
    ensures LedgerInv(RevokeKeys(l, keys, now), threshold)
  {
    var l' := RevokeKeys(l, keys, now);
    assert l'.log[..|l.log|] == l.log;
    forall k: Key ensures RowInv(l', k) { assert RowInv(l, k); }
    forall p: PropertyId ensures PropertyInv(l', p, threshold) {
      assert PropertyInv(l, p, threshold);
      assert RowInv(l, (p, Routine));
    }
    EarnedExtend(l.log, Revoke(keys), threshold);
  }

  // ----- what the ladder promises ---------------------------------------------

  /** The amortised bound: every unlock consumed `threshold` clean routine sends
      that no other unlock consumed. */
  lemma UnlocksArePaidFor(l: Ledger, p: PropertyId, threshold: nat)
    requires LedgerInv(l, threshold)
    ensures threshold * Unlocks(l.log, p)
              + (if UnlockedNow(l, p) then 0
                 else if (p, Routine) in l.rows then l.rows[(p, Routine)].consecutiveClean else 0)
              <= CleanSends(l.log, (p, Routine))
    ensures Revokes(l.log, p) <= Unlocks(l.log, p) <= Revokes(l.log, p) + 1
  {
    SpentIsProduct(l.log, p, threshold);
    assert PropertyInv(l, p, threshold) && RowInv(l, (p, Routine));
  }

  lemma {:induction false} StreakReaches(log: seq<TrustEvent>, key: Key) returns (from: nat)
    ensures from <= |log|
    ensures Streak(log[from..], key) == Streak(log, key) == CleanSends(log[from..], key)
    ensures forall i :: from <= i < |log| ==>
              !(log[i] == EditedSend(key) || log[i] == Rejection(key) || (log[i].Revoke? && key in log[i].keys))
  {
    from := |log|;
    if log != [] {
      var init, last := log[..|log| - 1], log[|log| - 1];
      if !(last == EditedSend(key) || last == Rejection(key) || (last.Revoke? && key in last.keys)) {
        from := StreakReaches(init, key);
        assert log[from..][..|log| - from - 1] == init[from..];
        forall i | from <= i < |log|
          ensures !(log[i] == EditedSend(key) || log[i] == Rejection(key) || (log[i].Revoke? && key in log[i].keys))
        {
          if i < |init| { assert log[i] == init[i]; }
        }
      } else {
        assert log[from..] == [];
      }
    }
  }

  /** Every unlock, first or repeated, is preceded by a stretch of history with at
      least `threshold` clean routine sends on the property and no edited send,
      rejection or revoke of it: a revoke really does send a property back to the
      start. */
  lemma EveryUnlockNeedsNewCleanSends(l: Ledger, threshold: nat, i: nat) returns (from: nat)
    requires LedgerInv(l, threshold)
    requires i < |l.log| && l.log[i].Unlock?
    ensures from <= i
    ensures var key := (l.log[i].property, Routine);
            && CleanSends(l.log[from..i], key) >= threshold
            && forall j :: from <= j < i ==>
                 !(l.log[j] == EditedSend(key) || l.log[j] == Rejection(key)
                   || (l.log[j].Revoke? && key in l.log[j].keys))
  {
    from := StreakReaches(l.log[..i], (l.log[i].property, Routine));
    assert l.log[..i][from..] == l.log[from..i];
    forall j | from <= j < i ensures l.log[j] == l.log[..i][j] {}
  }
}
