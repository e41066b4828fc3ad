/** Buying a number for a new property: a sequence of external effects with
    compensation, under every pattern of faults. Each call may work, fail without
    effect, fail after taking effect, or be where the process dies. */
module Provisioning {
  import opened Vocabulary

  type Sid = nat

  datatype Fault = Works | FailsBefore | FailsAfter | DiesBefore | DiesAfter

  predicate TakesEffect(f: Fault) { f == Works || f == FailsAfter || f == DiesAfter }
  predicate Raises(f: Fault) { f == FailsBefore || f == FailsAfter }
  predicate Dies(f: Fault) { f == DiesBefore || f == DiesAfter }

  /** The Twilio account, the property rows, and what operations was told. `pages` are
      the SIDs named in an alert that asks for reconciliation by hand; `releases` is
      history, each call with what the ownership guard saw just before it. */
  datatype Estate = Estate(
    owned: set<Sid>,        // numbers that exist, billed, at Twilio
    webhooks: set<Sid>,     // with both webhooks configured
    properties: set<Sid>,   // referenced by a live property row
    pages: set<Sid>,
    releases: seq<(Sid, bool)>)

  /** The faults of one `POST /v1/properties`. `guard` is the ownership SELECT, `write`
      the insert, read-back and commit; a commit that fails after taking effect is a
      lost acknowledgement. */
  datatype Faults = Faults(
    configured: bool, searchFails: bool, found: bool, purchase: Fault, configure: Fault, associate: Fault,
    duplicate: bool, write: Fault, guard: Fault, release: Fault)

  datatype Result =
    | Created(sid: Sid)
    | Refused            // nothing was bought
    | Compensated        // bought, then given up
    | Died

  // ----- compensation ---------------------------------------------------------

  predicate LiveProperty(e: Estate, sid: Sid) { sid in e.properties }

  /** `release_number_best_effort`: the guard first; a guard that cannot run, or that
      sees a live property, skips the release and pages. False when the process died. */
  function ReleaseBestEffort(e: Estate, sid: Sid, f: Faults): (Estate, bool) {
    if Dies(f.guard) then (e, false)
    else if Raises(f.guard) || LiveProperty(e, sid) then (e.(pages := e.pages + {sid}), true)
    else
      var gone := if TakesEffect(f.release) then e.owned - {sid} else e.owned;
      var e' := e.(owned := gone, releases := e.releases + [(sid, LiveProperty(e, sid))]);
      if Dies(f.release) then (e', false)
      else if Raises(f.release) && sid in e.owned then (e'.(pages := e'.pages + {sid}), true)
      else (e', true)  // worked, or Twilio no longer knew the number
  }

  /** How `provision_number` ends: the number is ready, was never bought, was bought and
      given up, or the process died on the way. */
  datatype Provisioned = Ready(e: Estate) | NothingBought(e: Estate) | GivenUp(e: Estate) | DiedAt(e: Estate)

  function ProvisionNumber(e: Estate, sid: Sid, f: Faults): Provisioned {
    if !f.configured || f.searchFails || !f.found then NothingBought(e)
    else
      var bought := if TakesEffect(f.purchase) then e.(owned := e.owned + {sid}) else e;
      if Dies(f.purchase) then DiedAt(bought)
      else if Raises(f.purchase) then NothingBought(bought)
      else
        var hooked := if TakesEffect(f.configure) then bought.(webhooks := bought.webhooks + {sid}) else bought;
        if Dies(f.configure) then DiedAt(hooked)
        else if Raises(f.configure) then
          var (e', alive) := ReleaseBestEffort(hooked, sid, f);
          if alive then GivenUp(e') else DiedAt(e')
        else if Dies(f.associate) then DiedAt(hooked)
        else Ready(hooked)  // a failed association never fails the request
  }

  /** The router's part: record the number, or alert and compensate. */
  function CreateProperty(e: Estate, sid: Sid, f: Faults): (Estate, Result) {
    match ProvisionNumber(e, sid, f)
    case NothingBought(e1) => (e1, Refused)
    case GivenUp(e1) => (e1, Compensated)
    case DiedAt(e1) => (e1, Died)
    case Ready(e1) =>
      if f.duplicate then  // the unique index decides a concurrent create: no alert
        var (e2, alive) := ReleaseBestEffort(e1, sid, f);
        (e2, if alive then Compensated else Died)
      else
        var written := if TakesEffect(f.write) then e1.(properties := e1.properties + {sid}) else e1;
        if Dies(f.write) then (written, Died)
        else if Raises(f.write) then
          var (e2, alive) := ReleaseBestEffort(written.(pages := written.pages + {sid}), sid, f);
          (e2, if alive then Compensated else Died)
        else (written, Created(sid))
  }

  // ----- conservation ---------------------------------------------------------

  /** The number serves a property with both webhooks, or is gone at Twilio, or
      operations was told about it. */
  predicate Accounted(e: Estate, sid: Sid) {
    (sid in e.properties && sid in e.webhooks) || sid !in e.owned || sid in e.pages
  }

  predicate Buys(f: Faults) { f.configured && !f.searchFails && f.found }

  /** Compensation that may leave the number behind without a word: the process dies in
      the guard, or in a release call that has not taken effect. */
  predicate DiesCompensating(f: Faults) { Dies(f.guard) || (f.guard == Works && f.release == DiesBefore) }

  /** The fault patterns that lose a number silently: the purchase takes effect but its
      acknowledgement is lost, or the process dies while it holds a number nothing
      else records. */
  predicate LosesSilently(f: Faults) {
    Buys(f) &&
    match f.purchase
    case FailsAfter => true
    case DiesAfter => true
    case FailsBefore => false
    case DiesBefore => false
    case Works =>
      || Dies(f.configure)
      || (Raises(f.configure) && DiesCompensating(f))
      || (f.configure == Works
          && (|| Dies(f.associate)
              || (f.duplicate && DiesCompensating(f))
              || (!f.duplicate && f.write == DiesBefore)))
  }

  /** For every fault pattern: a fresh number is accounted for in the end if and only if
      the pattern is not one of those. Numbers bought before are untouched. */
  lemma ConservedIff(e: Estate, sid: Sid, f: Faults)
    requires sid !in e.owned && sid !in e.webhooks && sid !in e.properties && sid !in e.pages
    ensures Accounted(CreateProperty(e, sid, f).0, sid) <==> !LosesSilently(f)
    ensures forall other :: other != sid ==>
              (Accounted(CreateProperty(e, sid, f).0, other) <==> Accounted(e, other))
  {
  }

  /** A request that returns a property returns one whose number has both webhooks. */
  lemma CreatedIsConfigured(e: Estate, sid: Sid, f: Faults)
    requires sid !in e.owned && sid !in e.webhooks && sid !in e.properties && sid !in e.pages
    ensures var (e', r) := CreateProperty(e, sid, f);
            && (r.Created? ==> r.sid == sid && sid in e'.properties && sid in e'.webhooks && sid in e'.owned)
            && (r == Refused && f.purchase != FailsAfter ==> e' == e)
            && (r == Compensated ==> sid !in e'.owned || sid in e'.pages)
  {
  }

  /** A property comes back exactly when nothing went wrong that matters, and a number that
      was bought is then owned, configured and referenced by it; a failed association of
      the sender does not matter. */
  lemma CreatedIff(e: Estate, sid: Sid, f: Faults)
    ensures var (e', r) := CreateProperty(e, sid, f);
            && (r == Created(sid) <==>
                  && f.configured && !f.searchFails && f.found && f.purchase == Works && f.configure == Works
                  && (f.associate == Works || f.associate == FailsBefore || f.associate == FailsAfter)
                  && !f.duplicate && f.write == Works)
            && (r == Created(sid) ==>
                  e' == e.(owned := e.owned + {sid}, webhooks := e.webhooks + {sid}, properties := e.properties + {sid}))
  {
    hide ReleaseBestEffort;
  }

  /** Giving a number up: the call is made exactly when the guard could run and saw no live
      property. The number is then gone if the call took effect; if it may still be there,
      and the process lives, operations is told. */
  lemma ReleaseOutcome(e: Estate, sid: Sid, f: Faults)
    ensures var (e', alive) := ReleaseBestEffort(e, sid, f);
            var calls := f.guard == Works && sid !in e.properties;
            && e'.releases == e.releases + (if calls then [(sid, false)] else [])
            && e'.owned == (if calls && (f.release == Works || f.release == FailsAfter || f.release == DiesAfter)
                            then e.owned - {sid} else e.owned)
            && (alive <==> f.guard != DiesBefore && f.guard != DiesAfter
                           && (calls ==> f.release != DiesBefore && f.release != DiesAfter))
            && (alive && sid in e'.owned ==> sid in e'.pages)
            && e'.properties == e.properties && e'.webhooks == e.webhooks && e.pages <= e'.pages <= e.pages + {sid}
  {
  }

  /** Every release so far followed a guard that saw no live property, and what a live
      property refers to is still owned. */
  ghost predicate Kept(e: Estate, live: Sid) {
    && (forall i :: 0 <= i < |e.releases| ==> !e.releases[i].1)
    && (live in e.properties ==> live in e.owned)
  }

  lemma ReleaseKeeps(e: Estate, sid: Sid, f: Faults, live: Sid)
    requires Kept(e, live)
    ensures Kept(ReleaseBestEffort(e, sid, f).0, live)
    ensures ReleaseBestEffort(e, sid, f).0.properties == e.properties
  {
  }

  lemma ProvisionKeeps(e: Estate, sid: Sid, f: Faults, live: Sid)
    requires Kept(e, live)
    ensures Kept(ProvisionNumber(e, sid, f).e, live)
    ensures ProvisionNumber(e, sid, f).Ready? ==> sid in ProvisionNumber(e, sid, f).e.owned
  {
    hide ReleaseBestEffort;
    if f.purchase == Works {
      var bought := e.(owned := e.owned + {sid});
      var hooked := if TakesEffect(f.configure) then bought.(webhooks := bought.webhooks + {sid}) else bought;
      ReleaseKeeps(hooked, sid, f, live);
    }
  }

  /** No release call ever follows a guard that saw a live property on the SID, and a
      live property's number is never released: not even after a commit whose
      acknowledgement was lost. */
  lemma LiveNumbersAreKept(e: Estate, sid: Sid, f: Faults, live: Sid)
    requires live in e.properties ==> live in e.owned
    requires forall i :: 0 <= i < |e.releases| ==> !e.releases[i].1
    ensures var e' := CreateProperty(e, sid, f).0;
            && (forall i :: 0 <= i < |e'.releases| ==> !e'.releases[i].1)
            && (live in e'.properties ==> live in e'.owned)
  {
    ProvisionKeeps(e, sid, f, live);
    var r := ProvisionNumber(e, sid, f);
    if r.Ready? {
      ReleaseKeeps(r.e, sid, f, live);
      var written := if TakesEffect(f.write) then r.e.(properties := r.e.properties + {sid}) else r.e;
      ReleaseKeeps(written.(pages := written.pages + {sid}), sid, f, live);
    }
    hide ReleaseBestEffort, ProvisionNumber;
  }

  /** The failure nobody hears about: the purchase succeeds at Twilio, the answer is
      lost, and the request reports only that provisioning failed. */
  lemma LostPurchaseIsSilent(e: Estate, sid: Sid)
    requires sid !in e.owned && sid !in e.webhooks && sid !in e.properties && sid !in e.pages
    ensures var f := Faults(true, false, true, FailsAfter, Works, Works, false, Works, Works, Works);
            var (e', r) := CreateProperty(e, sid, f);
            r == Refused && sid in e'.owned && e'.pages == e.pages && e'.releases == e.releases
  {
  }

  // ----- the saga as it runs ----------------------------------------------------

  class Provisioner {
    var owned: set<Sid>
    var webhooks: set<Sid>
    var properties: set<Sid>
    var pages: set<Sid>
    var releases: seq<(Sid, bool)>

    constructor ()
      ensures State() == Estate({}, {}, {}, {}, [])
    {
      owned, webhooks, properties, pages, releases := {}, {}, {}, {}, [];
    }

    function State(): Estate
      reads this
    {
      Estate(owned, webhooks, properties, pages, releases)
    }

    method Release(sid: Sid, f: Faults) returns (alive: bool)
      modifies this`owned, this`pages, this`releases
      ensures (State(), alive) == ReleaseBestEffort(old(State()), sid, f)
    {
      if Dies(f.guard) { return false; }
      if Raises(f.guard) || sid in properties {
        pages := pages + {sid};
        return true;
      }
      releases := releases + [(sid, false)];
      var known := sid in owned;
      if TakesEffect(f.release) { owned := owned - {sid}; }
      if Dies(f.release) { return false; }
      if Raises(f.release) && known { pages := pages + {sid}; }
      return true;
    }

    /** `provision_number`. */
    method Provision(sid: Sid, f: Faults) returns (r: Provisioned)
      modifies this
      ensures r == ProvisionNumber(old(State()), sid, f) && State() == r.e
    {
      if !f.configured || f.searchFails || !f.found { return NothingBought(State()); }
      if TakesEffect(f.purchase) { owned := owned + {sid}; }
      if Dies(f.purchase) { return DiedAt(State()); }
      if Raises(f.purchase) { return NothingBought(State()); }
      if TakesEffect(f.configure) { webhooks := webhooks + {sid}; }
      if Dies(f.configure) { return DiedAt(State()); }
      if Raises(f.configure) {
        var alive := Release(sid, f);
        return if alive then GivenUp(State()) else DiedAt(State());
      }
      return if Dies(f.associate) then DiedAt(State()) else Ready(State());
    }

    /** `POST /v1/properties` from the purchase on. If it neither lost the purchase's
        acknowledgement nor died, the number is accounted for. */
    method Create(sid: Sid, f: Faults) returns (r: Result)
      requires sid !in owned && sid !in webhooks && sid !in properties && sid !in pages
      modifies this
      ensures (State(), r) == CreateProperty(old(State()), sid, f)
      ensures Accounted(State(), sid) <==> !LosesSilently(f)
      ensures r != Died && f.purchase != FailsAfter ==> Accounted(State(), sid)
    {
      ConservedIff(State(), sid, f);
      var provisioned := Provision(sid, f);
      if provisioned.DiedAt? { return Died; }
      if provisioned.NothingBought? { return Refused; }
      if provisioned.GivenUp? { return Compensated; }
      if !f.duplicate {
        if TakesEffect(f.write) { properties := properties + {sid}; }
        if Dies(f.write) { return Died; }
        if !Raises(f.write) { return Created(sid); }
        pages := pages + {sid};
      }
      var alive := Release(sid, f);
      r := if alive then Compensated else Died;
    }
  }
}
