/** The evaluation harness's token limiter: a purged list of recent calls, a loop that
    waits for headroom, and the paced, retried call around them. Instants are in
    milliseconds of one monotonic clock. */
module TokenBudget {
  import opened Vocabulary
  import opened SlidingWindow

  const WINDOW: Time := 60_000
  const MIN_WAIT: Time := 100
  const BACKOFF_BASE: Time := 2_000
  const BACKOFF_CAP: Time := 70_000

  // ----- backoff --------------------------------------------------------------

  function Doubled(base: Time, n: nat): Time { if n == 0 then base else 2 * Doubled(base, n - 1) }

  /** `_rate_limit_backoff_seconds` */
  function Backoff(attempt: nat): Time {
    var uncapped := Doubled(BACKOFF_BASE, attempt);
    if uncapped < BACKOFF_CAP then uncapped else BACKOFF_CAP
  }

  lemma {:induction false} DoubledGrows(base: Time, a: nat, b: nat)
    requires base > 0 && a <= b
    ensures 0 < Doubled(base, a) <= Doubled(base, b)
  {
    if a < b { DoubledGrows(base, a, b - 1); } else if a > 0 { DoubledGrows(base, a - 1, a - 1); }
  }

  /** 2, 4, 8, 16, 32, 64 seconds and 70 from then on: the cap, and nothing before the
      sixth step, outlasts a whole token window. */
  lemma BackoffShape(attempt: nat)
    ensures attempt < 5 ==> Backoff(attempt + 1) == 2 * Backoff(attempt)
    ensures Backoff(0) == 2_000 && Backoff(attempt) <= Backoff(attempt + 1) <= 70_000
    ensures Backoff(attempt) > 60_000 <==> attempt >= 5
    ensures Backoff(attempt) == 70_000 <==> attempt >= 6
  {
    assert Doubled(BACKOFF_BASE, 0) == 2_000 && Doubled(BACKOFF_BASE, 1) == 4_000 && Doubled(BACKOFF_BASE, 2) == 8_000;
    assert Doubled(BACKOFF_BASE, 3) == 16_000 && Doubled(BACKOFF_BASE, 4) == 32_000;
    assert Doubled(BACKOFF_BASE, 5) == 64_000 && Doubled(BACKOFF_BASE, 6) == 128_000;
    DoubledGrows(BACKOFF_BASE, attempt, attempt + 1);
    if attempt >= 6 { DoubledGrows(BACKOFF_BASE, 6, attempt); }
  }

  /** All the backoff of the first `n` retries. */
  function BackoffSum(n: nat): Time { if n == 0 then 0 else BackoffSum(n - 1) + Backoff(n - 1) }

  // ----- the purged list ------------------------------------------------------

  /** Entries strictly newer than `cutoff`. */
  function Newer(log: seq<Entry>, cutoff: Time): (r: seq<Entry>)
    ensures |r| <= |log|
  {
    if log == [] then []
    else
      var before, last := Newer(log[..|log| - 1], cutoff), log[|log| - 1];
      if last.at > cutoff then before + [last] else before
  }

  function Sum(log: seq<Entry>): nat {
    if log == [] then 0 else Sum(log[..|log| - 1]) + log[|log| - 1].weight
  }

  lemma {:induction false} NewerNewer(log: seq<Entry>, early: Time, late: Time)
    requires early <= late
    ensures Newer(Newer(log, early), late) == Newer(log, late)
  {
    if log != [] {
      var init, last := log[..|log| - 1], log[|log| - 1];
      NewerNewer(init, early, late);
      if last.at > early { assert (Newer(init, early) + [last])[..|Newer(init, early)|] == Newer(init, early); }
    }
  }

  /** Summing what is left after a purge is the query over the full log. */
  lemma {:induction false} SumOfNewer(log: seq<Entry>, cutoff: Time)
    ensures Sum(Newer(log, cutoff)) == Since(log, cutoff)
  {
    if log != [] {
      var init, last := log[..|log| - 1], log[|log| - 1];
      SumOfNewer(init, cutoff);
      if last.at > cutoff { assert (Newer(init, cutoff) + [last])[..|Newer(init, cutoff)|] == Newer(init, cutoff); }
    }
  }

  lemma {:induction false} NewerKeeps(log: seq<Entry>, cutoff: Time)
    ensures forall e :: e in Newer(log, cutoff) ==> e in log && e.at > cutoff
  {
    if log != [] { NewerKeeps(log[..|log| - 1], cutoff); }
  }

  /** A purge that reaches some entry makes the list shorter. */
  lemma {:induction false} NewerDrops(log: seq<Entry>, cutoff: Time, i: nat)
    requires i < |log| && log[i].at <= cutoff
    ensures |Newer(log, cutoff)| < |log|
  {
    if i < |log| - 1 { NewerDrops(log[..|log| - 1], cutoff, i); }
  }

  function Max(a: Time, b: Time): Time { if a > b then a else b }

  class TokenBudgetTracker {
    var entries: seq<Entry>
    ghost var history: seq<Entry>  // every call ever recorded
    ghost var clock: Time          // the latest instant any method was given

    ghost predicate Valid()
      reads this
    {
      AllBy(history, clock) && exists cutoff: Time :: cutoff <= clock - WINDOW && entries == Newer(history, cutoff)
    }

    constructor (now: Time)
      ensures Valid() && history == [] && entries == [] && clock == now
    {
      entries, history, clock := [], [], now;
      new;
      assert entries == Newer(history, now - WINDOW);
    }

    method Purge(now: Time)
      requires Valid() && clock <= now
      modifies this`entries, this`clock
      ensures Valid() && clock == now && entries == Newer(history, now - WINDOW)
      ensures entries == Newer(old(entries), now - WINDOW)
    {
      ghost var cutoff: Time :| cutoff <= clock - WINDOW && entries == Newer(history, cutoff);
      NewerNewer(history, cutoff, now - WINDOW);
      var kept := [];
      var i := 0;
      while i < |entries|
        invariant 0 <= i <= |entries| && kept == Newer(entries[..i], now - WINDOW)
      {
        assert entries[..i + 1][..i] == entries[..i];
        if entries[i].at > now - WINDOW { kept := kept + [entries[i]]; }
        i := i + 1;
      }
      assert entries[..|entries|] == entries;
      entries, clock := kept, now;
    }

    /** The purged list gives the same trailing sum as the full history of calls. */
    method TrailingSum(now: Time) returns (sum: nat)
      requires Valid() && clock <= now
      modifies this`entries, this`clock
      ensures Valid() && clock == now && sum == Since(history, now - WINDOW)
      ensures entries == Newer(old(entries), now - WINDOW) && sum == Sum(entries)
    {
      Purge(now);
      SumOfNewer(history, now - WINDOW);
      hide Newer, Since, Valid;
      sum := 0;
      var i := 0;
      while i < |entries|
        invariant 0 <= i <= |entries| && sum == Sum(entries[..i])
      {
        assert entries[..i + 1][..i] == entries[..i];
        sum := sum + entries[i].weight;
        i := i + 1;
      }
      assert entries[..|entries|] == entries;
    }

    method Record(now: Time, tokens: nat)
      requires Valid() && clock <= now
      modifies this
      ensures Valid() && clock == now && history == old(history) + [Entry(now, tokens)]
      ensures |entries| <= |old(entries)| + 1
    {
      Purge(now);
      entries := entries + [Entry(now, tokens)];
      history := history + [Entry(now, tokens)];
      assert history[..|history| - 1] == old(history);
      assert entries == Newer(history, now - WINDOW);
    }

    method OldestTimestamp() returns (oldest: Option<Time>)
      ensures oldest.None? <==> entries == []
      ensures oldest.Some? ==> exists i :: 0 <= i < |entries| && entries[i].at == oldest.value
      ensures oldest.Some? ==> forall i :: 0 <= i < |entries| ==> oldest.value <= entries[i].at
    {
      if entries == [] { return None; }
      var m := entries[0].at;
      var i := 1;
      while i < |entries|
        invariant 1 <= i <= |entries|
        invariant exists k :: 0 <= k < i && entries[k].at == m
        invariant forall k :: 0 <= k < i ==> m <= entries[k].at
      {
        if entries[i].at < m { m := entries[i].at; }
        i := i + 1;
      }
      oldest := Some(m);
    }
  }

  /** `_wait_for_token_budget`. Each sleep may overrun by `late`. It returns after at
      most as many sleeps as there are entries in the window, with the headroom it
      waited for; the one exception is an estimate that is over the whole budget,
      which proceeds once the window is empty. */
  method WaitForTokenBudget(tracker: TokenBudgetTracker, estimate: nat, budget: nat, start: Time, late: seq<nat>)
    returns (now: Time, sleeps: nat)
    requires tracker.Valid() && tracker.clock <= start && |late| >= |tracker.entries|
    modifies tracker`entries, tracker`clock
    ensures tracker.Valid() && tracker.clock == now && start <= now
    ensures sleeps <= |old(tracker.entries)| && |tracker.entries| <= |old(tracker.entries)|
    ensures Since(tracker.history, now - 60_000) + estimate <= budget
            || (estimate > budget && Since(tracker.history, now - 60_000) == 0)
  {
    hide Newer, Since, TokenBudgetTracker.Valid;
    now, sleeps := start, 0;
    while true
      invariant tracker.Valid() && tracker.clock <= now && start <= now
      invariant |Newer(tracker.entries, now - WINDOW)| + sleeps <= |old(tracker.entries)|
      invariant |tracker.entries| <= |old(tracker.entries)|
      decreases |Newer(tracker.entries, now - WINDOW)|
    {
      var current := tracker.TrailingSum(now);
      if current + estimate <= budget { return; }
      var oldest := tracker.OldestTimestamp();
      if oldest.None? { return; }
      var wait := Max(oldest.value + WINDOW - now, MIN_WAIT);
      ghost var i :| 0 <= i < |tracker.entries| && tracker.entries[i].at == oldest.value;
      now := now + wait + late[sleeps];
      NewerDrops(tracker.entries, now - WINDOW, i);
      sleeps := sleeps + 1;
    }
  }

  // ----- the paced, retried call -------------------------------------------------

  datatype Reply = Success(tokens: nat) | RateLimited | OtherFailure

  datatype CallResult = Called(tokens: nat) | InfraError

  /** Every window of recorded tokens, wherever it ends, is within `budget`. */
  ghost predicate WithinBudget(history: seq<Entry>, budget: nat) {
    NeverOver(history, 60_000, budget)
  }

  /** The paced call. `replies` are the transport's answers in order, `took` how long
      each one and the sleep after it took. It retries rate limits only, at most
      `maxRetries` times; what it records never takes any 60 s window over budget,
      provided no call uses more than its estimate and no estimate is over budget. */
  method PacedCall(tracker: TokenBudgetTracker, estimate: nat, budget: nat, maxRetries: nat, start: Time, late: seq<nat>,
                   replies: seq<Reply>, took: seq<nat>)
    returns (r: CallResult, now: Time, retries: nat)
    requires tracker.Valid() && tracker.clock <= start && |late| >= |tracker.entries|
    requires |replies| > maxRetries && |took| > maxRetries
    modifies tracker
    ensures tracker.Valid() && tracker.clock <= now && start <= now
    ensures retries <= maxRetries && forall k :: 0 <= k < retries ==> replies[k] == RateLimited
    ensures start + BackoffSum(retries) <= now && |tracker.entries| <= |old(tracker.entries)| + 1
    ensures match r
            case Called(tokens) =>
              replies[retries] == Success(tokens) && tracker.history == old(tracker.history) + [Entry(now, tokens)]
            case InfraError =>
              tracker.history == old(tracker.history)
              && (replies[retries] == OtherFailure || (replies[retries] == RateLimited && retries == maxRetries))
    ensures WithinBudget(old(tracker.history), budget) && estimate <= budget && (r.Called? ==> r.tokens <= estimate) ==>
              WithinBudget(tracker.history, budget)
  {
    var sleeps;
    now, sleeps := WaitForTokenBudget(tracker, estimate, budget, start, late);
    ghost var checked := now;
    retries := 0;
    while true
      invariant 0 <= retries <= maxRetries && checked <= now && start + BackoffSum(retries) <= now
      invariant start <= now
      invariant tracker.Valid() && tracker.clock <= now && tracker.history == old(tracker.history)
      invariant |tracker.entries| <= |old(tracker.entries)|
      invariant forall k :: 0 <= k < retries ==> replies[k] == RateLimited
      decreases maxRetries - retries
    {
      now := now + took[retries];
      match replies[retries] {
        case Success(tokens) =>
          HeadroomHolds(tracker.history, checked, now, estimate, tokens, budget);
          tracker.Record(now, tokens);
          return Called(tokens), now, retries;
        case OtherFailure => return InfraError, now, retries;
        case RateLimited =>
          if retries >= maxRetries { return InfraError, now, retries; }
          now := now + Backoff(retries);
          BackoffShape(retries);
          DoubledGrows(BACKOFF_BASE, retries, retries);
          retries := retries + 1;
      }
    }
  }

  /** Headroom found at `checked` is still there at the later instant of the record,
      since nothing else was recorded in between. */
  lemma HeadroomHolds(history: seq<Entry>, checked: Time, now: Time, estimate: nat, tokens: nat, budget: nat)
    requires checked <= now && AllBy(history, now)
    ensures WithinBudget(history, budget) && tokens <= estimate && Since(history, checked - WINDOW) + estimate <= budget ==>
              WithinBudget(history + [Entry(now, tokens)], budget)
  {
    SinceDecays(history, checked - WINDOW, now - WINDOW);
    if WithinBudget(history, budget) && tokens <= estimate && Since(history, checked - WINDOW) + estimate <= budget {
      AppendKeepsLimit(history, WINDOW, budget, now, tokens);
    }
  }

  // ----- a whole session --------------------------------------------------------

  /** One call of a session: its estimate, how long after the call before it starts,
      how much its sleeps overrun, and what the transport answers. */
  datatype Call = Call(estimate: nat, idle: nat, late: seq<nat>, replies: seq<Reply>, took: seq<nat>)

  /** The call can be made after `before` others: the world has an answer for each of
      its tries, and a sleep for each entry the list may hold by then. */
  predicate Answerable(c: Call, before: nat, maxRetries: nat) {
    |c.late| >= before && |c.replies| > maxRetries && |c.took| > maxRetries
  }

  /** No estimate is over the budget, and no call used more than its estimate. */
  ghost predicate Honest(calls: seq<Call>, results: seq<CallResult>, budget: nat) {
    && |results| <= |calls|
    && forall i :: 0 <= i < |results| ==>
         calls[i].estimate <= budget && (results[i].Called? ==> results[i].tokens <= calls[i].estimate)
  }

  /** The tokens of the calls that came back, in order. */
  function Used(results: seq<CallResult>): seq<nat> {
    if results == [] then []
    else
      var before, last := Used(results[..|results| - 1]), results[|results| - 1];
      if last.Called? then before + [last.tokens] else before
  }

  function Weights(log: seq<Entry>): seq<nat> {
    if log == [] then [] else Weights(log[..|log| - 1]) + [log[|log| - 1].weight]
  }

  lemma UsedOneMore(results: seq<CallResult>, r: CallResult)
    ensures Used(results + [r]) == if r.Called? then Used(results) + [r.tokens] else Used(results)
  {
    assert (results + [r])[..|results|] == results;
  }

  lemma WeightsOneMore(log: seq<Entry>, e: Entry)
    ensures Weights(log + [e]) == Weights(log) + [e.weight]
  {
    assert (log + [e])[..|log|] == log;
  }

  lemma HonestBefore(calls: seq<Call>, results: seq<CallResult>, r: CallResult, budget: nat)
    requires Honest(calls, results + [r], budget)
    ensures Honest(calls, results, budget)
    ensures calls[|results|].estimate <= budget && (r.Called? ==> r.tokens <= calls[|results|].estimate)
  {
    var all := results + [r];
    assert all[|results|] == r;
    forall i | 0 <= i < |results|
      ensures calls[i].estimate <= budget && (results[i].Called? ==> results[i].tokens <= calls[i].estimate)
    {
      assert all[i] == results[i];
    }
  }

  /** The harness makes its calls one after the other on one tracker. What the tracker
      has recorded in the end is exactly what the calls used, and in an honest session
      no 60 s window of it, wherever it ends, is over budget: every call found the
      headroom its predecessors left. */
  method PacedSession(calls: seq<Call>, budget: nat, maxRetries: nat, start: Time)
    returns (results: seq<CallResult>, tracker: TokenBudgetTracker, now: Time)
    requires forall i :: 0 <= i < |calls| ==> Answerable(calls[i], i, maxRetries)
    ensures fresh(tracker) && tracker.Valid() && |results| == |calls| && start <= now
    ensures Weights(tracker.history) == Used(results)
    ensures Honest(calls, results, budget) ==> WithinBudget(tracker.history, budget)
  {
    hide NeverOver, Newer, Used, Weights, Honest;
    tracker := new TokenBudgetTracker(start);
    results, now := [], start;
    NothingRecorded(budget);
    while |results| < |calls|
      invariant |results| <= |calls| && start <= now && fresh(tracker)
      invariant tracker.Valid() && tracker.clock <= now && |tracker.entries| <= |results|
      invariant Weights(tracker.history) == Used(results)
      invariant Honest(calls, results, budget) ==> WithinBudget(tracker.history, budget)
    {
      var c := calls[|results|];
      ghost var before := tracker.history;
      var r, retries;
      r, now, retries := PacedCall(tracker, c.estimate, budget, maxRetries, now + c.idle, c.late, c.replies, c.took);
      UsedOneMore(results, r);
      if r.Called? { WeightsOneMore(before, Entry(now, r.tokens)); }
      if Honest(calls, results + [r], budget) { HonestBefore(calls, results, r, budget); }
      results := results + [r];
    }
  }

  lemma NothingRecorded(budget: nat)
    ensures NeverOver([], WINDOW, budget) && Weights([]) == Used([]) == []
  {
  }
}
