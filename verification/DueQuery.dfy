/** The sender's candidate query: approved, due rows of unresolved cases, oldest
    schedule first, at most `limit` of them. */
module DueQuery {
  import opened Vocabulary
  import opened Tables

  predicate Eligible(db: Db, d: DraftId) {
    d < |db.drafts| && db.drafts[d].status == Approved && Due(db.drafts[d], db.now)
    && !CaseIs(db, db.drafts[d].caseId, Resolved)
  }

  /** In the columns of the row: approved, its time come, its case not resolved. */
  lemma EligibleWhen(db: Db, d: DraftId)
    ensures Eligible(db, d) <==>
              && d < |db.drafts| && db.drafts[d].status == Approved
              && db.drafts[d].scheduledSendAt.Some? && db.drafts[d].scheduledSendAt.value <= db.now
              && (db.drafts[d].caseId < |db.cases| ==> db.cases[db.drafts[d].caseId].status != Resolved)
  {
  }

  function DueAt(db: Db, d: DraftId): Time
    requires Eligible(db, d)
  {
    db.drafts[d].scheduledSendAt.value
  }

  ghost predicate AllEligible(db: Db, ids: seq<DraftId>) {
    forall i :: 0 <= i < |ids| ==> Eligible(db, ids[i])
  }

  ghost predicate OldestFirst(db: Db, ids: seq<DraftId>)
    requires AllEligible(db, ids)
  {
    forall i, j :: 0 <= i < j < |ids| ==> DueAt(db, ids[i]) <= DueAt(db, ids[j])
  }

  ghost predicate NoRepeats(ids: seq<DraftId>) {
    forall i, j :: 0 <= i < j < |ids| ==> ids[i] != ids[j]
  }

  /** The batch is full, and `d` is no older than anything in it. */
  ghost predicate NoRoomFor(db: Db, ids: seq<DraftId>, limit: nat, d: DraftId)
    requires AllEligible(db, ids) && Eligible(db, d)
  {
    |ids| == limit && forall i :: 0 <= i < |ids| ==> DueAt(db, ids[i]) <= DueAt(db, d)
  }

  ghost predicate Below(ids: seq<DraftId>, n: nat) {
    forall i :: 0 <= i < |ids| ==> ids[i] < n
  }

  ghost predicate NothingMissed(db: Db, n: nat, ids: seq<DraftId>, limit: nat)
    requires AllEligible(db, ids)
  {
    forall d :: 0 <= d < n && Eligible(db, d) && d !in ids ==> NoRoomFor(db, ids, limit, d)
  }

  /** `ids` answers the query over the first `n` rows. */
  ghost predicate Answers(db: Db, n: nat, ids: seq<DraftId>, limit: nat) {
    && |ids| <= limit && AllEligible(db, ids) && OldestFirst(db, ids) && NoRepeats(ids)
    && Below(ids, n) && NothingMissed(db, n, ids, limit)
  }

  function Insert(db: Db, ids: seq<DraftId>, d: DraftId): (r: seq<DraftId>)
    requires AllEligible(db, ids) && Eligible(db, d)
    ensures |r| == |ids| + 1 && AllEligible(db, r)
    ensures forall x :: x in r <==> x in ids || x == d
  {
    if ids == [] then [d]
    else
      var last := ids[|ids| - 1];
      if DueAt(db, last) <= DueAt(db, d) then ids + [d]
      else
        assert ids == ids[..|ids| - 1] + [last];
        Insert(db, ids[..|ids| - 1], d) + [last]
  }

  lemma {:induction false} InsertKeepsOrder(db: Db, ids: seq<DraftId>, d: DraftId)
    requires AllEligible(db, ids) && Eligible(db, d) && OldestFirst(db, ids) && NoRepeats(ids) && d !in ids
    ensures OldestFirst(db, Insert(db, ids, d)) && NoRepeats(Insert(db, ids, d))
  {
    if ids != [] && DueAt(db, ids[|ids| - 1]) > DueAt(db, d) {
      var init, last := ids[..|ids| - 1], ids[|ids| - 1];
      InsertKeepsOrder(db, init, d);
      var r := Insert(db, init, d);
      forall i | 0 <= i < |r| ensures DueAt(db, r[i]) <= DueAt(db, last) && r[i] != last {
        assert r[i] in r;
        if r[i] != d {
          assert r[i] in init;
          var k :| 0 <= k < |init| && init[k] == r[i];
          assert ids[k] == r[i];
        }
      }
    }
  }

  function DueBatch(db: Db, n: nat, limit: nat): (ids: seq<DraftId>)
    requires n <= |db.drafts|
    ensures AllEligible(db, ids)
  {
    if n == 0 then []
    else
      var before := DueBatch(db, n - 1, limit);
      if Eligible(db, n - 1) then
        var all := Insert(db, before, n - 1);
        if |all| > limit then all[..limit] else all
      else before
  }

  /** The query's answer: nothing ineligible, nothing twice, oldest first, and
      whatever is missing is younger than everything returned, and missing only
      because the batch is full. */
  lemma {:induction false} DueBatchAnswers(db: Db, n: nat, limit: nat)
    requires n <= |db.drafts|
    ensures Answers(db, n, DueBatch(db, n, limit), limit)
  {
    if n > 0 {
      DueBatchAnswers(db, n - 1, limit);
      if Eligible(db, n - 1) { OneMoreRow(db, n, limit); }
    }
  }

  /** At most `limit` of them. */
  function Cut(ids: seq<DraftId>, limit: nat): seq<DraftId> { if |ids| > limit then ids[..limit] else ids }

  lemma OneMoreRow(db: Db, n: nat, limit: nat)
    requires 0 < n <= |db.drafts| && Answers(db, n - 1, DueBatch(db, n - 1, limit), limit) && Eligible(db, n - 1)
    ensures Answers(db, n, DueBatch(db, n, limit), limit)
  {
    var before := DueBatch(db, n - 1, limit);
    assert DueBatch(db, n, limit) == Cut(Insert(db, before, n - 1), limit);
    hide DueBatch;
    NewRowInserted(db, n, before, limit);
  }

  lemma InsertedBelow(db: Db, before: seq<DraftId>, n: nat)
    requires 0 < n && AllEligible(db, before) && Eligible(db, n - 1) && Below(before, n - 1)
    ensures Below(Insert(db, before, n - 1), n)
  {
    hide Eligible;
    var all := Insert(db, before, n - 1);
    forall i | 0 <= i < |all| ensures all[i] < n { assert all[i] in all; }
  }

  lemma PrefixInOrder(db: Db, all: seq<DraftId>, ids: seq<DraftId>, n: nat)
    requires ids <= all && AllEligible(db, all) && OldestFirst(db, all) && NoRepeats(all) && Below(all, n)
    ensures AllEligible(db, ids) && OldestFirst(db, ids) && NoRepeats(ids) && Below(ids, n)
  {
    hide Eligible;
  }

  lemma NewRowInserted(db: Db, n: nat, before: seq<DraftId>, limit: nat)
    requires 0 < n && Answers(db, n - 1, before, limit) && Eligible(db, n - 1)
    ensures Answers(db, n, Cut(Insert(db, before, n - 1), limit), limit)
  {
    assert n - 1 !in before;
    InsertKeepsOrder(db, before, n - 1);
    InsertedBelow(db, before, n);
    var all := Insert(db, before, n - 1);
    CutOf(all, limit);
    PrefixInOrder(db, all, Cut(all, limit), n);
    NoneMissed(db, n, before, limit);
    hide Insert, Eligible, Cut, AllEligible, OldestFirst, NoRepeats, Below, NothingMissed;
  }

  lemma CutOf(ids: seq<DraftId>, limit: nat)
    ensures Cut(ids, limit) <= ids && |Cut(ids, limit)| == if |ids| > limit then limit else |ids|
  {
  }

  /** The row that was cut off. */
  lemma CutOffIsYoungest(db: Db, all: seq<DraftId>, limit: nat, d: DraftId)
    requires AllEligible(db, all) && OldestFirst(db, all) && |all| <= limit + 1 && d in all && d !in Cut(all, limit)
    requires Eligible(db, d)
    ensures |Cut(all, limit)| == limit && forall i :: 0 <= i < limit ==> DueAt(db, all[i]) <= DueAt(db, d)
  {
    hide Eligible;
    var k :| 0 <= k < |all| && all[k] == d;
    var ids := Cut(all, limit);
    assert forall i :: 0 <= i < |ids| ==> ids[i] == all[i] && ids[i] in ids;
    assert k == limit;
  }

  lemma MissingIsYounger(db: Db, n: nat, before: seq<DraftId>, limit: nat, d: DraftId)
    requires 0 < n && Answers(db, n - 1, before, limit) && Eligible(db, n - 1)
    requires OldestFirst(db, Insert(db, before, n - 1))
    requires d < n && Eligible(db, d) && d !in Cut(Insert(db, before, n - 1), limit)
    ensures var ids := Cut(Insert(db, before, n - 1), limit);
            AllEligible(db, ids) && NoRoomFor(db, ids, limit, d)
  {
    var all := Insert(db, before, n - 1);
    CutOf(all, limit);
    if d in all {
      hide Insert, Answers, Eligible;
      CutOffIsYoungest(db, all, limit, d);
    } else {
      hide Insert, Eligible, Cut;
      assert d !in before && d < n - 1;
      forall i | 0 <= i < limit ensures DueAt(db, all[i]) <= DueAt(db, d) { KeptIsOlder(db, n, before, limit, d, i); }
    }
  }

  lemma NoneMissed(db: Db, n: nat, before: seq<DraftId>, limit: nat)
    requires 0 < n && Answers(db, n - 1, before, limit) && Eligible(db, n - 1)
    requires OldestFirst(db, Insert(db, before, n - 1))
    requires AllEligible(db, Cut(Insert(db, before, n - 1), limit))
    ensures NothingMissed(db, n, Cut(Insert(db, before, n - 1), limit), limit)
  {
    hide Insert, Cut, Eligible, OldestFirst, NoRepeats, Below, NoRoomFor;
    var ids := Cut(Insert(db, before, n - 1), limit);
    forall d | 0 <= d < n && Eligible(db, d) && d !in ids ensures NoRoomFor(db, ids, limit, d) {
      MissingIsYounger(db, n, before, limit, d);
    }
  }

  /** When the batch was full without `d`, whatever is kept of it and the newcomer is no
      younger than `d`. */
  lemma KeptIsOlder(db: Db, n: nat, before: seq<DraftId>, limit: nat, d: DraftId, i: nat)
    requires 0 < n && Answers(db, n - 1, before, limit) && Eligible(db, n - 1)
    requires OldestFirst(db, Insert(db, before, n - 1))
    requires d < n - 1 && Eligible(db, d) && d !in before && i < limit
    ensures |Insert(db, before, n - 1)| == limit + 1 && DueAt(db, Insert(db, before, n - 1)[i]) <= DueAt(db, d)
  {
    var all := Insert(db, before, n - 1);
    assert |all| == limit + 1 && all[i] in all && n - 1 !in before;
    hide Insert, Eligible;
    if all[i] in before {
      var k :| 0 <= k < |before| && before[k] == all[i];
    } else {
      var out := NewcomerKeptIsOlder(db, before, n - 1, limit, i);
      var k :| 0 <= k < |before| && before[k] == out;
    }
  }

  /** A row that made it into a full batch is no younger than the one it pushed
      out. */
  lemma NewcomerKeptIsOlder(db: Db, before: seq<DraftId>, x: DraftId, limit: nat, i: nat) returns (out: DraftId)
    requires AllEligible(db, before) && Eligible(db, x) && |before| == limit && x !in before
    requires OldestFirst(db, Insert(db, before, x))
    requires i < limit && Insert(db, before, x)[i] == x
    ensures out in before && DueAt(db, x) <= DueAt(db, out)
  {
    var all := Insert(db, before, x);
    out := all[limit];
    assert out in all;
    assert out != x by { InsertPlacesOnce(db, before, x, i); }
  }

  lemma {:induction false} InsertPlacesOnce(db: Db, ids: seq<DraftId>, x: DraftId, i: nat)
    requires AllEligible(db, ids) && Eligible(db, x) && x !in ids
    requires i < |ids| && Insert(db, ids, x)[i] == x
    ensures Insert(db, ids, x)[|ids|] != x
  {
    assert forall j :: 0 <= j < |ids| ==> ids[j] in ids;
  }
}
