/** One durable SMS row under any mix of senders: the chain's inline T+0 send and
    overlapping drain ticks. A claim bumps `attempt` but leaves the row claimable, so
    what is exclusive is the attempt slot, not the row. */
module SmsDrain {
  import Vocabulary

  type ProcId = Vocabulary.ProcId

  datatype Status = Pending | Failed | Sent | Exhausted

  datatype Sender = Inline | Drain

  datatype Phase =
    | Candidate(sender: Sender, attempt: nat)
    | Holding(sender: Sender, slot: nat)              // claimed, not sent yet
    | Answered(sender: Sender, slot: nat, ok: bool)   // knows the outcome, not recorded yet

  /** `sends` is history: the slots for which Twilio accepted a message. */
  datatype Row = Row(attempt: nat, status: Status, procs: map<ProcId, Phase>, sends: seq<nat>)

  datatype Outcome = Accepted | RefusedCall | AcceptedAckLost

  datatype Event =
    | ReadRow(p: ProcId, sender: Sender)
    | Claim(p: ProcId)
    | NoPhone(p: ProcId)              // a drain that finds no number to send to
    | SendText(p: ProcId, outcome: Outcome)
    | Mark(p: ProcId)
    | Crash(p: ProcId)

  predicate Open(s: Status) { s == Pending || s == Failed }

  function Gone(s: Row, p: ProcId): Row { s.(procs := s.procs - {p}) }

  function Step(s: Row, e: Event): Row {
    match e
    case ReadRow(p, sender) =>
      if p !in s.procs && Open(s.status) then s.(procs := s.procs[p := Candidate(sender, s.attempt)]) else s
    case Claim(p) =>
      if p in s.procs && s.procs[p].Candidate? then
        if Open(s.status) && s.attempt == s.procs[p].attempt then
          s.(attempt := s.attempt + 1, procs := s.procs[p := Holding(s.procs[p].sender, s.attempt)])
        else Gone(s, p)
      else s
    case NoPhone(p) =>
      if p in s.procs && s.procs[p].Holding? && s.procs[p].sender == Drain then Gone(s, p).(status := Exhausted) else s
    case SendText(p, outcome) =>
      if p in s.procs && s.procs[p].Holding? then
        var Holding(sender, slot) := s.procs[p];
        match outcome {
          case Accepted => s.(procs := s.procs[p := Answered(sender, slot, true)], sends := s.sends + [slot])
          case RefusedCall => s.(procs := s.procs[p := Answered(sender, slot, false)])
          case AcceptedAckLost => s.(procs := s.procs[p := Answered(sender, slot, false)], sends := s.sends + [slot])
        }
      else s
    case Mark(p) =>
      if p in s.procs && s.procs[p].Answered? then
        var Answered(sender, _, ok) := s.procs[p];
        if sender == Inline && !Open(s.status) then Gone(s, p)  // guarded
        else Gone(s, p).(status := if ok then Sent else Failed)  // the drain's mark is not
      else s
    case Crash(p) => Gone(s, p)
  }

  function Run(s: Row, es: seq<Event>): Row {
    if es == [] then s else Step(Run(s, es[..|es| - 1]), es[|es| - 1])
  }

  function Initial(): Row { Row(0, Pending, map[], []) }

  // ----- slots ----------------------------------------------------------------

  predicate HasSlot(ph: Phase) { ph.Holding? || ph.Answered? }

  ghost predicate Inv(s: Row) {
    && (forall p :: p in s.procs && HasSlot(s.procs[p]) ==> s.procs[p].slot < s.attempt)
    && (forall p, q :: p in s.procs && q in s.procs && p != q && HasSlot(s.procs[p]) && HasSlot(s.procs[q]) ==>
          s.procs[p].slot != s.procs[q].slot)
    && (forall i :: 0 <= i < |s.sends| ==> s.sends[i] < s.attempt)
    && (forall i, j :: 0 <= i < j < |s.sends| ==> s.sends[i] != s.sends[j])
    && (forall i, p :: 0 <= i < |s.sends| && p in s.procs && s.procs[p].Holding? ==> s.sends[i] != s.procs[p].slot)
  }

  lemma GoneKeepsInv(s: Row, p: ProcId, status: Status)
    requires Inv(s)
    ensures Inv(Gone(s, p)) && Inv(Gone(s, p).(status := status))
  {
  }

  lemma ClaimKeepsInv(s: Row, p: ProcId)
    requires Inv(s)
    ensures Inv(Step(s, Claim(p)))
  {
    GoneKeepsInv(s, p, s.status);
  }

  lemma SendKeepsInv(s: Row, p: ProcId, outcome: Outcome)
    requires Inv(s)
    ensures Inv(Step(s, SendText(p, outcome)))
  {
  }

  lemma StepKeepsInv(s: Row, e: Event)
    requires Inv(s)
    ensures Inv(Step(s, e))
  {
    match e
    case ReadRow(_, _) =>
    case Claim(p) => ClaimKeepsInv(s, p);
    case NoPhone(p) => GoneKeepsInv(s, p, Exhausted);
    case SendText(p, outcome) => SendKeepsInv(s, p, outcome);
    case Mark(p) => GoneKeepsInv(s, p, Status.Sent); GoneKeepsInv(s, p, Failed);
    case Crash(p) => GoneKeepsInv(s, p, s.status);
  }

  lemma {:induction false} RunKeepsInv(s: Row, es: seq<Event>)
    requires Inv(s)
    ensures Inv(Run(s, es))
  {
    if es != [] {
      RunKeepsInv(s, es[..|es| - 1]);
      StepKeepsInv(Run(s, es[..|es| - 1]), es[|es| - 1]);
    }
  }

  /** Distinct numbers below `bound` are at most `bound` many. */
  lemma {:induction false} DistinctBelow(xs: seq<nat>, bound: nat)
    requires forall i :: 0 <= i < |xs| ==> xs[i] < bound
    requires forall i, j :: 0 <= i < j < |xs| ==> xs[i] != xs[j]
    ensures |xs| <= bound
  {
    if xs == [] {
    } else if k :| 0 <= k < |xs| && xs[k] == bound - 1 {
      var rest := xs[..k] + xs[k + 1..];
      assert bound > 0;
      forall i | 0 <= i < |rest| ensures rest[i] < bound - 1 {
        assert rest[i] == if i < k then xs[i] else xs[i + 1];
      }
      DistinctBelow(rest, bound - 1);
    } else {
      assert xs[0] < bound;
      DistinctBelow(xs, bound - 1);
    }
  }

  /** Whatever senders overlap and whatever crashes, no attempt slot is used for two
      messages, two callers that read the same attempt never both hold it, and the
      tenant gets at most `attempt` messages. */
  lemma SlotsAreExclusive(es: seq<Event>, p: ProcId, q: ProcId)
    ensures var s := Run(Initial(), es);
            && |s.sends| <= s.attempt
            && (forall i, j :: 0 <= i < j < |s.sends| ==> s.sends[i] != s.sends[j])
            && (p in s.procs && q in s.procs && p != q && HasSlot(s.procs[p]) && HasSlot(s.procs[q]) ==>
                  s.procs[p].slot != s.procs[q].slot)
  {
    RunKeepsInv(Initial(), es);
    DistinctBelow(Run(Initial(), es).sends, Run(Initial(), es).attempt);
  }

  /** Of two callers that read the row at the same attempt, at most one claim wins. */
  lemma OneClaimPerAttempt(s: Row, p: ProcId, q: ProcId)
    requires p in s.procs && q in s.procs && p != q && s.procs[p].Candidate? && s.procs[q].Candidate?
    requires s.procs[p].attempt == s.procs[q].attempt
    ensures var s' := Step(Step(s, Claim(p)), Claim(q));
            !(p in s'.procs && HasSlot(s'.procs[p]) && q in s'.procs && HasSlot(s'.procs[q]))
  {
  }

  /** What is written about an attempt: nothing by the inline send once the row is closed,
      and otherwise `sent` exactly if Twilio said that it took the message. A drain that
      finds no number gives the row up. */
  lemma AttemptIsRecorded(s: Row, p: ProcId)
    requires p in s.procs
    ensures s.procs[p].Answered? ==>
              Step(s, Mark(p)).status ==
                if s.procs[p].sender == Inline && (s.status == Status.Sent || s.status == Exhausted) then s.status
                else if s.procs[p].ok then Status.Sent else Failed
    ensures s.procs[p].Holding? && s.procs[p].sender == Drain ==> Step(s, NoPhone(p)).status == Exhausted
    ensures s.procs[p].Holding? ==>
              forall outcome :: var s' := Step(s, SendText(p, outcome));
                p in s'.procs && s'.procs[p] == Answered(s.procs[p].sender, s.procs[p].slot, outcome == Accepted)
                && s'.status == s.status && s'.sends == s.sends + if outcome == RefusedCall then [] else [s.procs[p].slot]
  {
  }

  // ----- `sent` is not final ----------------------------------------------------

  /** A sent row stops being sent exactly when another drain that holds a slot of it
      records a failure, or finds no number. */
  predicate Regresses(s: Row, e: Event) {
    || (e.Mark? && e.p in s.procs && s.procs[e.p].Answered? && s.procs[e.p].sender == Drain && !s.procs[e.p].ok)
    || (e.NoPhone? && e.p in s.procs && s.procs[e.p].Holding? && s.procs[e.p].sender == Drain)
  }

  lemma SentRegressesIff(s: Row, e: Event)
    requires s.status == Sent
    ensures Step(s, e).status != Sent <==> Regresses(s, e)
  {
  }

  predicate DrainInFlight(s: Row, p: ProcId) { p in s.procs && HasSlot(s.procs[p]) && s.procs[p].sender == Drain }

  ghost predicate Alone(s: Row) { forall p :: !DrainInFlight(s, p) }

  lemma SentAloneStep(s: Row, e: Event)
    requires s.status == Sent && Alone(s)
    ensures Step(s, e).status == Sent && Alone(Step(s, e))
  {
    forall p ensures !DrainInFlight(Step(s, e), p) {
      assert !DrainInFlight(s, p);
    }
    match e
    case Mark(p) => assert !DrainInFlight(s, p);
    case NoPhone(p) => assert !DrainInFlight(s, p);
    case _ =>
  }

  /** If no drain is in flight when a row becomes `sent`, it stays `sent`: a sent row
      cannot be claimed again. */
  lemma {:induction false} SentAloneIsFinal(s: Row, es: seq<Event>)
    requires s.status == Sent && Alone(s)
    ensures Run(s, es).status == Sent && Alone(Run(s, es))
  {
    if es != [] {
      SentAloneIsFinal(s, es[..|es| - 1]);
      SentAloneStep(Run(s, es[..|es| - 1]), es[|es| - 1]);
    }
  }

  lemma RunSnoc(s: Row, es: seq<Event>, e: Event)
    ensures Run(s, es + [e]) == Step(Run(s, es), e)
  {
    assert (es + [e])[..|es|] == es;
  }

  /** Without that it need not: the inline send succeeds and is recorded while a
      drain that claimed the next slot is still waiting for Twilio; when that one
      fails, the delivered row is `failed` again and due for another text. */
  lemma SentCanRegress() returns (es: seq<Event>, more: seq<Event>)
    ensures Run(Initial(), es).status == Sent && |Run(Initial(), es).sends| == 1
    ensures Run(Initial(), es + more).status == Failed
  {
    var s := Initial();
    es := [];
    es, s := Then(es, s, ReadRow(0, Inline));
    es, s := Then(es, s, Claim(0));
    es, s := Then(es, s, ReadRow(1, Drain));
    es, s := Then(es, s, Claim(1));
    es, s := Then(es, s, SendText(0, Accepted));
    es, s := Then(es, s, Mark(0));
    var all := es;
    all, s := Then(all, s, SendText(1, RefusedCall));
    all, s := Then(all, s, Mark(1));
    more := all[|es|..];
    assert es + more == all;
  }

  lemma Then(es: seq<Event>, s: Row, e: Event) returns (es': seq<Event>, s': Row)
    requires s == Run(Initial(), es)
    ensures es' == es + [e] && s' == Step(s, e) && s' == Run(Initial(), es')
  {
    RunSnoc(Initial(), es, e);
    es', s' := es + [e], Step(s, e);
  }
}
