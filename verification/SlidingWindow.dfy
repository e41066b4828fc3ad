/** Sums over a trailing window of a time-stamped log. Two limiters of the source
    rest on it: the daily auto-send cap and the per-minute token budget. */
module SlidingWindow {
  import opened Vocabulary

  datatype Entry = Entry(at: Time, weight: nat)

  /** Total weight strictly after `cutoff`: what a trailing-window query reads. */
  function Since(log: seq<Entry>, cutoff: Time): nat {
    if log == [] then 0
    else Since(log[..|log| - 1], cutoff)
         + (if log[|log| - 1].at > cutoff then log[|log| - 1].weight else 0)
  }

  /** Total weight in the half-open window of length `width` that ends at `t`. */
  function EndingAt(log: seq<Entry>, width: Time, t: Time): nat {
    if log == [] then 0
    else EndingAt(log[..|log| - 1], width, t)
         + (if t - width < log[|log| - 1].at <= t then log[|log| - 1].weight else 0)
  }

  ghost predicate AllBy(log: seq<Entry>, now: Time) {
    forall i :: 0 <= i < |log| ==> log[i].at <= now
  }

  /** No window, wherever it ends, holds more than `limit`. */
  ghost predicate NeverOver(log: seq<Entry>, width: Time, limit: nat) {
    forall t: Time :: EndingAt(log, width, t) <= limit
  }

  lemma {:induction false} SinceDecays(log: seq<Entry>, early: Time, late: Time)
    requires early <= late
    ensures Since(log, late) <= Since(log, early)
  {
    if log != [] { SinceDecays(log[..|log| - 1], early, late); }
  }

  lemma {:induction false} WindowWithinSince(log: seq<Entry>, width: Time, t: Time)
    ensures EndingAt(log, width, t) <= Since(log, t - width)
  {
    if log != [] { WindowWithinSince(log[..|log| - 1], width, t); }
  }

  /** At the present the query reads exactly the window. */
  lemma {:induction false} SinceIsWindow(log: seq<Entry>, width: Time, now: Time)
    requires AllBy(log, now)
    ensures Since(log, now - width) == EndingAt(log, width, now)
  {
    if log != [] { SinceIsWindow(log[..|log| - 1], width, now); }
  }

  /** Checking the trailing window before writing at `now` keeps every window,
      past and future, within the limit. */
  lemma AppendKeepsLimit(log: seq<Entry>, width: Time, limit: nat, now: Time, weight: nat)
    requires NeverOver(log, width, limit) && AllBy(log, now)
    requires Since(log, now - width) + weight <= limit
    ensures NeverOver(log + [Entry(now, weight)], width, limit)
    ensures AllBy(log + [Entry(now, weight)], now)
  {
    var log' := log + [Entry(now, weight)];
    assert log'[..|log|] == log;
    forall t: Time ensures EndingAt(log', width, t) <= limit {
      if t < now {
        assert EndingAt(log', width, t) == EndingAt(log, width, t);
      } else {
        WindowWithinSince(log, width, t);
        SinceDecays(log, now - width, t - width);
      }
    }
  }
}
