/** The connection-budget side of the lock: any number of graph runs, each of which
    holds one connection while it tries and holds its case's lock, and borrows a
    second one for each of its nodes. */
module LockPools {

  type RunId = nat

  datatype Stage =
    | Waiting              // for a lock connection
    | Trying               // has one; about to try the key
    | Holding(left: nat)   // holds the key; so many nodes still to run
    | InNode(left: nat)    // also holds a node connection
    | Sleeping             // between two tries
    | Finished

  /** `shared` is the arrangement before the dedicated pool: node connections come
      out of the lock connections' own pool. */
  datatype Config = Config(keys: seq<nat>, work: seq<nat>, lockCap: nat, nodeCap: nat, shared: bool)

  datatype Pools = Pools(stage: seq<Stage>, lockConns: set<RunId>, nodeConns: set<RunId>, held: map<nat, RunId>)

  predicate LockConnFree(cfg: Config, s: Pools) {
    if cfg.shared then |s.lockConns| + |s.nodeConns| < cfg.lockCap else |s.lockConns| < cfg.lockCap
  }

  predicate NodeConnFree(cfg: Config, s: Pools) {
    if cfg.shared then |s.lockConns| + |s.nodeConns| < cfg.lockCap else |s.nodeConns| < cfg.nodeCap
  }

  /** Run `r` can do nothing until somebody else moves, or is done. */
  predicate Blocked(cfg: Config, s: Pools, r: RunId)
    requires r < |s.stage|
  {
    match s.stage[r]
    case Waiting => !LockConnFree(cfg, s)
    case Holding(left) => left > 0 && !NodeConnFree(cfg, s)
    case Finished => true
    case _ => false
  }

  function Step(cfg: Config, s: Pools, r: RunId): Pools
    requires r < |s.stage| == |cfg.keys| == |cfg.work|
  {
    if Blocked(cfg, s, r) then s
    else
      match s.stage[r]
      case Waiting => s.(stage := s.stage[r := Trying], lockConns := s.lockConns + {r})
      case Trying =>
        if cfg.keys[r] in s.held then s.(stage := s.stage[r := Sleeping], lockConns := s.lockConns - {r})
        else s.(stage := s.stage[r := Holding(cfg.work[r])], held := s.held[cfg.keys[r] := r])
      case Sleeping => s.(stage := s.stage[r := Waiting])
      case Holding(left) =>
        if left == 0 then
          s.(stage := s.stage[r := Finished], lockConns := s.lockConns - {r}, held := s.held - {cfg.keys[r]})
        else s.(stage := s.stage[r := InNode(left)], nodeConns := s.nodeConns + {r})
      case InNode(left) =>
        s.(stage := s.stage[r := Holding(if left > 0 then left - 1 else 0)], nodeConns := s.nodeConns - {r})
  }

  ghost predicate Schedule(cfg: Config, sched: seq<RunId>) {
    forall i :: 0 <= i < |sched| ==> sched[i] < |cfg.keys|
  }

  function Exec(cfg: Config, s: Pools, sched: seq<RunId>): (s': Pools)
    requires |s.stage| == |cfg.keys| == |cfg.work| && Schedule(cfg, sched)
    ensures |s'.stage| == |s.stage|
  {
    if sched == [] then s
    else Step(cfg, Exec(cfg, s, sched[..|sched| - 1]), sched[|sched| - 1])
  }

  function Start(cfg: Config): Pools {
    Pools(seq(|cfg.keys|, _ => Waiting), {}, {}, map[])
  }

  predicate HasKey(stage: Stage) { stage.Holding? || stage.InNode? }

  predicate HasLockConn(stage: Stage) { stage.Trying? || HasKey(stage) }

  ghost predicate Inv(cfg: Config, s: Pools) {
    && |s.stage| == |cfg.keys| == |cfg.work|
    && (forall r :: r in s.lockConns <==> 0 <= r < |s.stage| && HasLockConn(s.stage[r]))
    && (forall r :: r in s.nodeConns <==> 0 <= r < |s.stage| && s.stage[r].InNode?)
    && (forall r :: 0 <= r < |s.stage| && s.stage[r].InNode? ==> s.stage[r].left > 0)
    && (forall r :: 0 <= r < |s.stage| && HasKey(s.stage[r]) ==> cfg.keys[r] in s.held && s.held[cfg.keys[r]] == r)
    && (forall k :: k in s.held ==> s.held[k] < |s.stage| && HasKey(s.stage[s.held[k]]) && cfg.keys[s.held[k]] == k)
  }

  lemma StartInv(cfg: Config)
    requires |cfg.keys| == |cfg.work|
    ensures Inv(cfg, Start(cfg))
  {
  }

  lemma TryKeepsInv(cfg: Config, s: Pools, r: RunId)
    requires Inv(cfg, s) && r < |s.stage| && s.stage[r].Trying?
    ensures Inv(cfg, Step(cfg, s, r))
  {
  }

  lemma FinishKeepsInv(cfg: Config, s: Pools, r: RunId)
    requires Inv(cfg, s) && r < |s.stage| && s.stage[r] == Holding(0)
    ensures Inv(cfg, Step(cfg, s, r))
  {
  }

  lemma NodeKeepsInv(cfg: Config, s: Pools, r: RunId)
    requires Inv(cfg, s) && r < |s.stage| && (s.stage[r].InNode? || (s.stage[r].Holding? && s.stage[r].left > 0))
    ensures Inv(cfg, Step(cfg, s, r))
  {
  }

  lemma WaitKeepsInv(cfg: Config, s: Pools, r: RunId)
    requires Inv(cfg, s) && r < |s.stage| && s.stage[r].Waiting?
    ensures Inv(cfg, Step(cfg, s, r))
  {
    if LockConnFree(cfg, s) {
      AdmittedKeepsInv(cfg, s, r);
      assert Step(cfg, s, r) == Admitted(s, r);
    } else {
      assert Step(cfg, s, r) == s;
    }
    hide Inv, Step;
  }

  /** A lock connection for run `r`. */
  function Admitted(s: Pools, r: RunId): Pools
    requires r < |s.stage|
  {
    s.(stage := s.stage[r := Trying], lockConns := s.lockConns + {r})
  }

  lemma AdmittedKeepsInv(cfg: Config, s: Pools, r: RunId)
    requires Inv(cfg, s) && r < |s.stage| && s.stage[r].Waiting?
    ensures Inv(cfg, Admitted(s, r))
  {
    var s' := Admitted(s, r);
    assert forall q :: 0 <= q < |s.stage| && q != r ==> s'.stage[q] == s.stage[q];
    assert s'.stage[r] == Trying && r !in s.nodeConns;
    forall k | k in s.held ensures s.held[k] != r {}
  }

  lemma SleepKeepsInv(cfg: Config, s: Pools, r: RunId)
    requires Inv(cfg, s) && r < |s.stage| && (s.stage[r].Sleeping? || s.stage[r].Finished?)
    ensures Inv(cfg, Step(cfg, s, r))
  {
  }

  lemma StepKeepsInv(cfg: Config, s: Pools, r: RunId)
    requires Inv(cfg, s) && r < |s.stage|
    ensures Inv(cfg, Step(cfg, s, r))
  {
    hide Step, Inv;
    if s.stage[r].Trying? { TryKeepsInv(cfg, s, r); }
    else if s.stage[r] == Holding(0) { FinishKeepsInv(cfg, s, r); }
    else if s.stage[r].InNode? || s.stage[r].Holding? { NodeKeepsInv(cfg, s, r); }
    else if s.stage[r].Waiting? { WaitKeepsInv(cfg, s, r); }
    else { SleepKeepsInv(cfg, s, r); }
  }

  lemma {:induction false} ExecKeepsInv(cfg: Config, s: Pools, sched: seq<RunId>)
    requires Inv(cfg, s) && Schedule(cfg, sched)
    ensures Inv(cfg, Exec(cfg, s, sched))
  {
    if sched != [] {
      ExecKeepsInv(cfg, s, sched[..|sched| - 1]);
      StepKeepsInv(cfg, Exec(cfg, s, sched[..|sched| - 1]), sched[|sched| - 1]);
    }
  }

  /** In every reachable state: at most one run holds a key, and a run that sleeps
      between tries, like one that waits or has finished, holds no connection of
      either pool. */
  lemma SleepersHoldNothing(cfg: Config, sched: seq<RunId>, r: RunId, q: RunId)
    requires |cfg.keys| == |cfg.work| && Schedule(cfg, sched) && r < |cfg.keys| && q < |cfg.keys|
    ensures var s := Exec(cfg, Start(cfg), sched);
            && (s.stage[r].Sleeping? || s.stage[r].Waiting? || s.stage[r].Finished? ==>
                  r !in s.lockConns && r !in s.nodeConns && r !in s.held.Values)
            && (HasKey(s.stage[r]) && HasKey(s.stage[q]) && cfg.keys[r] == cfg.keys[q] ==> r == q)
  {
    StartInv(cfg);
    ExecKeepsInv(cfg, Start(cfg), sched);
  }

  // ----- deadlock -------------------------------------------------------------

  ghost predicate Deadlocked(cfg: Config, s: Pools) {
    && (exists r :: 0 <= r < |s.stage| && !s.stage[r].Finished?)
    && (forall r :: 0 <= r < |s.stage| ==> Blocked(cfg, s, r))
  }

  /** What a run still has to do, at most, if its next try succeeds. */
  function Weight(work: nat, stage: Stage): nat {
    match stage
    case Sleeping => 2 * work + 5
    case Waiting => 2 * work + 4
    case Trying => 2 * work + 3
    case Holding(left) => 2 * left + 2
    case InNode(left) => 2 * left + 1
    case Finished => 0
  }

  function Total(work: seq<nat>, stage: seq<Stage>): nat
    requires |work| == |stage|
  {
    if work == [] then 0 else Total(work[1..], stage[1..]) + Weight(work[0], stage[0])
  }

  lemma {:induction false} TotalDrops(work: seq<nat>, stage: seq<Stage>, r: nat, next: Stage)
    requires r < |work| == |stage| && Weight(work[r], next) < Weight(work[r], stage[r])
    ensures Total(work, stage[r := next]) < Total(work, stage)
  {
    if r > 0 {
      assert stage[r := next][1..] == stage[1..][r - 1 := next];
      TotalDrops(work[1..], stage[1..], r - 1, next);
    } else {
      assert stage[r := next][1..] == stage[1..];
    }
  }

  /** With separate pools some unfinished run can always move closer to its end: a
      run inside a node, or else one that holds its lock, or else one that tries
      (nobody then holds a key), or else any. */
  lemma SomeoneProgresses(cfg: Config, s: Pools, u: RunId) returns (r: RunId)
    requires Inv(cfg, s) && !cfg.shared && cfg.lockCap > 0 && cfg.nodeCap > 0
    requires u < |s.stage| && !s.stage[u].Finished?
    ensures r < |s.stage| && !Blocked(cfg, s, r)
    ensures Weight(cfg.work[r], Step(cfg, s, r).stage[r]) < Weight(cfg.work[r], s.stage[r])
  {
    if q :| 0 <= q < |s.stage| && s.stage[q].InNode? {
      r := q;
    } else if q :| 0 <= q < |s.stage| && s.stage[q].Holding? {
      assert s.nodeConns == {};
      r := q;
    } else if q :| 0 <= q < |s.stage| && s.stage[q].Trying? {
      assert s.held == map[];
      r := q;
    } else {
      assert s.lockConns == {};
      r := u;
    }
  }

  /** With separate pools no reachable state of any number of runs is deadlocked;
      from each of them every run can still finish. */
  lemma TwoPoolsNeverDeadlock(cfg: Config, sched: seq<RunId>) returns (more: seq<RunId>)
    requires |cfg.keys| == |cfg.work| && Schedule(cfg, sched)
    requires !cfg.shared && cfg.lockCap > 0 && cfg.nodeCap > 0
    ensures !Deadlocked(cfg, Exec(cfg, Start(cfg), sched))
    ensures Schedule(cfg, more) && AllFinished(Exec(cfg, Exec(cfg, Start(cfg), sched), more))
  {
    StartInv(cfg);
    ExecKeepsInv(cfg, Start(cfg), sched);
    var s := Exec(cfg, Start(cfg), sched);
    if u :| 0 <= u < |s.stage| && !s.stage[u].Finished? {
      var r := SomeoneProgresses(cfg, s, u);
    }
    more := CanFinish(cfg, s);
  }

  ghost predicate AllFinished(s: Pools) {
    forall r :: 0 <= r < |s.stage| ==> s.stage[r].Finished?
  }

  lemma {:induction false} ExecCons(cfg: Config, s: Pools, r: RunId, sched: seq<RunId>)
    requires |s.stage| == |cfg.keys| == |cfg.work| && Schedule(cfg, sched) && r < |cfg.keys|
    ensures Schedule(cfg, [r] + sched) && Exec(cfg, s, [r] + sched) == Exec(cfg, Step(cfg, s, r), sched)
  {
    hide Step;
    if sched == [] {
      assert [r] + sched == [r] && [r][..0] == [];
    } else {
      ExecCons(cfg, s, r, sched[..|sched| - 1]);
      assert ([r] + sched)[..|sched|] == [r] + sched[..|sched| - 1];
    }
  }

  lemma {:induction false} CanFinish(cfg: Config, s: Pools) returns (more: seq<RunId>)
    requires Inv(cfg, s) && !cfg.shared && cfg.lockCap > 0 && cfg.nodeCap > 0
    ensures Schedule(cfg, more) && AllFinished(Exec(cfg, s, more))
    decreases Total(cfg.work, s.stage)
  {
    more := [];
    if u :| 0 <= u < |s.stage| && !s.stage[u].Finished? {
      var r := SomeoneProgresses(cfg, s, u);
      var s' := Step(cfg, s, r);
      StepKeepsInv(cfg, s, r);
      assert s'.stage == s.stage[r := s'.stage[r]];
      TotalDrops(cfg.work, s.stage, r, s'.stage[r]);
      var rest := CanFinish(cfg, s');
      ExecCons(cfg, s, r, rest);
      more := [r] + rest;
    }
  }

  /** A deadlock of the shared pool is exactly what its documentation describes:
      every connection is held by a run that has its lock and wants a node. */
  lemma SharedDeadlockShape(cfg: Config, s: Pools)
    requires Inv(cfg, s) && cfg.shared && Deadlocked(cfg, s)
    ensures s.nodeConns == {} && |s.lockConns| >= cfg.lockCap
    ensures forall r :: r in s.lockConns ==> s.stage[r].Holding? && s.stage[r].left > 0
  {
    assert forall r :: 0 <= r < |s.stage| && s.stage[r].InNode? ==> !Blocked(cfg, s, r);
    forall r | r in s.lockConns ensures s.stage[r].Holding? && s.stage[r].left > 0 { assert Blocked(cfg, s, r); }
    var r :| 0 <= r < |s.stage| && !s.stage[r].Finished?;
    assert Blocked(cfg, s, r);
  }

  /** One pool, and as many runs as it has connections, on distinct cases, each with
      a node to run. */
  ghost predicate IsCrowd(cfg: Config) {
    && cfg.shared && |cfg.keys| == |cfg.work| == cfg.lockCap > 0
    && (forall i, j :: 0 <= i < j < |cfg.keys| ==> cfg.keys[i] != cfg.keys[j])
    && (forall i :: 0 <= i < |cfg.work| ==> cfg.work[i] > 0)
  }

  /** The first `m` of them hold their locks. */
  ghost predicate Crowded(cfg: Config, s: Pools, m: nat) {
    && Inv(cfg, s) && m <= |cfg.keys|
    && (forall r :: 0 <= r < m ==> s.stage[r].Holding? && s.stage[r].left > 0)
    && (forall r :: m <= r < |cfg.keys| ==> s.stage[r] == Waiting)
  }

  function Below(m: nat): (b: set<nat>)
    ensures forall i: nat :: i in b <==> i < m
  {
    if m == 0 then {} else Below(m - 1) + {m - 1}
  }

  lemma {:induction false} BelowSize(m: nat)
    ensures |Below(m)| == m
  {
    if m > 0 { BelowSize(m - 1); }
  }

  lemma CrowdConns(cfg: Config, s: Pools, m: nat)
    requires Crowded(cfg, s, m)
    ensures |s.lockConns| == m && |s.nodeConns| == 0
  {
    assert s.lockConns == Below(m);
    assert s.nodeConns == {};
    BelowSize(m);
  }

  lemma OneTries(cfg: Config, s: Pools, m: nat)
    requires IsCrowd(cfg) && Crowded(cfg, s, m) && m < |cfg.keys|
    ensures Step(cfg, s, m) == s.(stage := s.stage[m := Trying], lockConns := s.lockConns + {m})
    ensures cfg.keys[m] !in s.held
  {
    CrowdConns(cfg, s, m);
  }

  lemma OneLocks(cfg: Config, s: Pools, m: nat)
    requires IsCrowd(cfg) && Crowded(cfg, s, m) && m < |cfg.keys|
    ensures Step(cfg, Step(cfg, s, m), m).stage == s.stage[m := Holding(cfg.work[m])]
  {
    OneTries(cfg, s, m);
  }

  lemma OneMore(cfg: Config, s: Pools, m: nat)
    requires IsCrowd(cfg) && Crowded(cfg, s, m) && m < |cfg.keys|
    ensures Crowded(cfg, Step(cfg, Step(cfg, s, m), m), m + 1)
  {
    OneLocks(cfg, s, m);
    TwoStepsKeepInv(cfg, s, m);
    hide Step, Inv, Crowded;
    CrowdedByOne(cfg, s, Step(cfg, Step(cfg, s, m), m), m);
  }

  lemma CrowdedByOne(cfg: Config, s: Pools, s': Pools, m: nat)
    requires IsCrowd(cfg) && Crowded(cfg, s, m) && m < |cfg.keys| && Inv(cfg, s')
    requires s'.stage == s.stage[m := Holding(cfg.work[m])]
    ensures Crowded(cfg, s', m + 1)
  {
    forall r | 0 <= r < m + 1 ensures s'.stage[r].Holding? && s'.stage[r].left > 0 {
      if r < m { assert s.stage[r].Holding? && s.stage[r].left > 0; }
    }
    forall r | m + 1 <= r < |cfg.keys| ensures s'.stage[r] == Waiting { assert s.stage[r] == Waiting; }
  }

  lemma TwoStepsKeepInv(cfg: Config, s: Pools, r: RunId)
    requires Inv(cfg, s) && r < |s.stage|
    ensures Inv(cfg, Step(cfg, Step(cfg, s, r), r))
  {
    StepKeepsInv(cfg, s, r);
    StepKeepsInv(cfg, Step(cfg, s, r), r);
  }

  lemma ExecTwice(cfg: Config, s: Pools, sched: seq<RunId>, r: RunId)
    requires |s.stage| == |cfg.keys| == |cfg.work| && Schedule(cfg, sched) && r < |cfg.keys|
    ensures Schedule(cfg, sched + [r] + [r])
    ensures Exec(cfg, s, sched + [r] + [r]) == Step(cfg, Step(cfg, Exec(cfg, s, sched), r), r)
  {
    var longer := sched + [r] + [r];
    assert longer[..|longer| - 1] == sched + [r] && (sched + [r])[..|sched|] == sched;
  }

  lemma CrowdIsStuck(cfg: Config, s: Pools)
    requires IsCrowd(cfg) && Crowded(cfg, s, |cfg.keys|)
    ensures Deadlocked(cfg, s)
  {
    CrowdConns(cfg, s, |cfg.keys|);
    assert !s.stage[0].Finished?;
  }

  lemma StartIsCrowded(cfg: Config)
    requires IsCrowd(cfg)
    ensures Schedule(cfg, []) && Crowded(cfg, Exec(cfg, Start(cfg), []), 0)
  {
    StartInv(cfg);
  }

  lemma CrowdStep(cfg: Config, sched: seq<RunId>, s: Pools, m: nat)
    requires IsCrowd(cfg) && Schedule(cfg, sched) && s == Exec(cfg, Start(cfg), sched)
    requires Crowded(cfg, s, m) && m < |cfg.keys|
    ensures Schedule(cfg, sched + [m] + [m]) && Crowded(cfg, Exec(cfg, Start(cfg), sched + [m] + [m]), m + 1)
  {
    OneMore(cfg, s, m);
    ExecTwice(cfg, Start(cfg), sched, m);
    hide Exec, Step, Inv, Crowded;
  }

  /** Letting the runs lock one after the other. */
  lemma {:induction false} CrowdGrows(cfg: Config, m: nat) returns (sched: seq<RunId>)
    requires IsCrowd(cfg) && m <= |cfg.keys|
    ensures Schedule(cfg, sched) && Crowded(cfg, Exec(cfg, Start(cfg), sched), m)
  {
    hide Exec, Crowded, Schedule;
    if m == 0 {
      sched := [];
      StartIsCrowded(cfg);
    } else {
      var before := CrowdGrows(cfg, m - 1);
      CrowdStep(cfg, before, Exec(cfg, Start(cfg), before), m - 1);
      sched := before + [m - 1] + [m - 1];
    }
  }

  /** A single pool of any size has a reachable deadlock: as many runs on distinct
      cases as it has connections. */
  lemma SinglePoolDeadlocks(cfg: Config) returns (sched: seq<RunId>)
    requires IsCrowd(cfg)
    ensures Schedule(cfg, sched) && Deadlocked(cfg, Exec(cfg, Start(cfg), sched))
  {
    sched := CrowdGrows(cfg, |cfg.keys|);
    hide Exec, Step, Inv, Deadlocked;
    CrowdIsStuck(cfg, Exec(cfg, Start(cfg), sched));
  }
}
