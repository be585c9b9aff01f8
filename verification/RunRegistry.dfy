/** The headed run registry: who is live, who is claimed, and how each run's promise gets settled. */
module RunRegistry {
  type RunId = string

  datatype Phase = Open | Claimed

  datatype RunRecord = RunRecord(testPath: string, epoch: int, phase: Phase)

  datatype Outcome = Resolved | Rejected

  /**
   The registry with its pending timers. For every minted run `deferreds` lists the resolve and reject calls its promise
   got. `claims` and `booted` are history: the claims made, and the runs a message was admitted for.
   */
  datatype State = State(
    runs: map<RunId, RunRecord>,
    epoch: int,
    bootTimers: set<RunId>,
    cleanupTimers: set<RunId>,
    deferreds: map<RunId, seq<Outcome>>,
    claims: multiset<RunId>,
    booted: set<RunId>)

  datatype Op =
    | Mint(runId: RunId, testPath: string)
    | Admit(runId: RunId, terminal: bool)
    | ArmCleanup(runId: RunId)
    | DisarmCleanup(runId: RunId)
    | Resolve(runId: RunId)
    | Reject(runId: RunId)
    | RetainPaths(paths: set<string>)
    | RejectAll
    | SetTransportEpoch(epoch: int)
    | BootTimerFires(runId: RunId)
    | CleanupTimerFires(runId: RunId)

  ghost function Initial(): State {
    State(map[], 0, {}, {}, map[], multiset{}, {})
  }

  // ----- one step -----

  ghost predicate IsOpen(s: State, id: RunId) {
    id in s.runs && s.runs[id].phase == Open
  }

  ghost predicate IsClaimed(s: State, id: RunId) {
    id in s.runs && s.runs[id].phase == Claimed
  }

  ghost function Settle(s: State, ids: set<RunId>, outcome: Outcome): State {
    s.(runs := s.runs - ids,
       bootTimers := s.bootTimers - ids,
       cleanupTimers := s.cleanupTimers - ids,
       deferreds := map i | i in s.deferreds :: if i in ids then s.deferreds[i] + [outcome] else s.deferreds[i])
  }

  ghost function SettleNamed(s: State, id: RunId, outcome: Outcome): State {
    if id in s.runs then Settle(s, {id}, outcome) else s
  }

  ghost function OpenRuns(runs: map<RunId, RunRecord>, swept: RunRecord -> bool): set<RunId> {
    set i | i in runs && runs[i].phase == Open && swept(runs[i])
  }

  ghost function Sweep(s: State, swept: RunRecord -> bool, outcome: Outcome): State {
    Settle(s, OpenRuns(s.runs, swept), outcome)
  }

  ghost function Claim(s: State, id: RunId): State
    requires id in s.runs
  {
    s.(runs := s.runs[id := s.runs[id].(phase := Claimed)], claims := s.claims + multiset{id})
  }

  // Whether a message of this run may be processed.
  ghost predicate Admits(s: State, id: RunId, terminal: bool) {
    id in s.runs && (terminal ==> s.runs[id].phase == Open)
  }

  ghost function Step(s: State, op: Op): State {
    match op
    case Mint(id, testPath) =>
      var swept := Sweep(s, (r: RunRecord) => r.testPath == testPath, Resolved);
      swept.(runs := swept.runs[id := RunRecord(testPath, s.epoch, Open)],
             bootTimers := swept.bootTimers + {id},
             deferreds := swept.deferreds[id := []])
    case Admit(id, terminal) =>
      if id !in s.runs then s else
        var heard := s.(bootTimers := s.bootTimers - {id}, booted := s.booted + {id});
        if terminal && s.runs[id].phase == Open then Claim(heard, id) else heard
    case ArmCleanup(id) => if IsOpen(s, id) then s.(cleanupTimers := s.cleanupTimers + {id}) else s
    case DisarmCleanup(id) => if id in s.runs then s.(cleanupTimers := s.cleanupTimers - {id}) else s
    case Resolve(id) => SettleNamed(s, id, Resolved)
    case Reject(id) => SettleNamed(s, id, Rejected)
    case RetainPaths(paths) => Sweep(s, (r: RunRecord) => r.testPath !in paths, Resolved)
    case RejectAll => Sweep(s, (r: RunRecord) => true, Rejected)
    case SetTransportEpoch(epoch) => Sweep(s.(epoch := epoch), (r: RunRecord) => r.epoch < epoch, Rejected)
    case BootTimerFires(id) => SettleNamed(s.(bootTimers := s.bootTimers - {id}), id, Rejected)
    case CleanupTimerFires(id) =>
      var fired := s.(cleanupTimers := s.cleanupTimers - {id});
      if IsOpen(s, id) then Claim(fired, id) else fired
  }

  // Fresh ids are never repeated, epochs grow, and only pending timers fire.
  ghost predicate Enabled(s: State, op: Op) {
    match op
    case Mint(id, _) => id !in s.deferreds
    case SetTransportEpoch(epoch) => s.epoch < epoch
    case BootTimerFires(id) => id in s.bootTimers
    case CleanupTimerFires(id) => id in s.cleanupTimers
    case _ => true
  }

  // The gate's rule: a cleanup deadline is armed only for a run a message was admitted for.
  ghost predicate ArmsAfterAdmit(s: State, op: Op) {
    op.ArmCleanup? && op.runId in s.runs ==> op.runId in s.booted
  }

  // ----- what every step keeps -----

  ghost predicate RunOk(s: State, id: RunId)
    requires id in s.deferreds
  {
    && (if id in s.runs then s.deferreds[id] == [] else |s.deferreds[id]| == 1)
    && s.claims[id] <= 1
    && (id in s.runs ==> (s.runs[id].phase == Claimed <==> s.claims[id] == 1))
  }

  ghost predicate OnePerPath(s: State) {
    forall i, j :: IsOpen(s, i) && IsOpen(s, j) && s.runs[i].testPath == s.runs[j].testPath ==> i == j
  }

  // What any use of the registry keeps.
  ghost predicate Sound(s: State) {
    && s.runs.Keys <= s.deferreds.Keys
    && s.bootTimers <= s.runs.Keys && s.cleanupTimers <= s.runs.Keys
    && (forall id :: id in s.claims ==> id in s.deferreds)
    && s.booted <= s.deferreds.Keys && s.booted !! s.bootTimers
    && (forall id :: id in s.deferreds ==> RunOk(s, id))
    && OnePerPath(s)
    && (forall id :: IsOpen(s, id) ==> s.runs[id].epoch == s.epoch)
  }

  ghost predicate ClaimedHasNoBootTimer(s: State) {
    forall id :: IsClaimed(s, id) ==> id !in s.bootTimers
  }

  // What the gate's rule keeps besides.
  ghost predicate Gated(s: State) {
    && s.cleanupTimers <= s.booted
    && (forall id :: IsClaimed(s, id) ==> id in s.booted)
  }

  lemma {:induction false} SettleKeeps(s: State, ids: set<RunId>, outcome: Outcome)
    requires Sound(s) && ids <= s.runs.Keys
    ensures Sound(Settle(s, ids, outcome))
  {
    var t := Settle(s, ids, outcome);
    forall id | id in t.deferreds ensures RunOk(t, id) {
      assert RunOk(s, id);
    }
  }

  lemma {:induction false} ClaimKeeps(s: State, id: RunId)
    requires Sound(s) && IsOpen(s, id)
    ensures Sound(Claim(s, id))
  {
    var t := Claim(s, id);
    forall i | i in t.deferreds ensures RunOk(t, i) {
      assert RunOk(s, i);
    }
  }

  lemma {:induction false} MintKeeps(s: State, id: RunId, testPath: string)
    requires Sound(s) && id !in s.deferreds
    ensures Sound(Step(s, Mint(id, testPath)))
  {
    var swept := Sweep(s, (r: RunRecord) => r.testPath == testPath, Resolved);
    SettleKeeps(s, OpenRuns(s.runs, (r: RunRecord) => r.testPath == testPath), Resolved);
    FreshRunKeeps(swept, id, testPath);
  }

  lemma {:induction false} FreshRunKeeps(s: State, id: RunId, testPath: string)
    requires Sound(s) && id !in s.deferreds && forall i :: IsOpen(s, i) ==> s.runs[i].testPath != testPath
    ensures Sound(s.(runs := s.runs[id := RunRecord(testPath, s.epoch, Open)], bootTimers := s.bootTimers + {id},
        deferreds := s.deferreds[id := []]))
  {
    var t := s.(runs := s.runs[id := RunRecord(testPath, s.epoch, Open)], bootTimers := s.bootTimers + {id},
        deferreds := s.deferreds[id := []]);
    forall i | i in t.deferreds ensures RunOk(t, i) {
      if i == id {
        assert t.claims[id] == 0;
      } else {
        assert RunOk(s, i);
      }
    }
    forall i | IsOpen(t, i) ensures t.runs[i].epoch == t.epoch && (i != id ==> IsOpen(s, i) && t.runs[i] == s.runs[i]) {
      assert i != id ==> IsOpen(s, i);
    }
  }

  lemma {:induction false} EpochKeeps(s: State, epoch: int)
    requires Sound(s) && s.epoch < epoch
    ensures Sound(Step(s, SetTransportEpoch(epoch)))
  {
    var swept := OpenRuns(s.runs, (r: RunRecord) => r.epoch < epoch);
    var t := Settle(s, swept, Rejected);
    SettleKeeps(s, swept, Rejected);
    var u := Step(s, SetTransportEpoch(epoch));
    assert u == t.(epoch := epoch);
    forall i ensures !IsOpen(u, i) {
      assert IsOpen(s, i) ==> s.runs[i].epoch == s.epoch;
    }
    forall i | i in u.deferreds ensures RunOk(u, i) {
      assert RunOk(t, i);
    }
  }

  /** Every step, gated or not, keeps the registry sound. */
  lemma {:induction false} StepKeepsSound(s: State, op: Op)
    requires Sound(s) && Enabled(s, op)
    ensures Sound(Step(s, op))
  {
    match op
    case Mint(id, testPath) => MintKeeps(s, id, testPath);
    case Admit(id, terminal) =>
      if id in s.runs {
        var heard := s.(bootTimers := s.bootTimers - {id}, booted := s.booted + {id});
        SameRunsKeep(s, heard);
        if terminal && IsOpen(s, id) {
          ClaimKeeps(heard, id);
        }
      }
    case ArmCleanup(id) => SameRunsKeep(s, Step(s, op));
    case DisarmCleanup(id) => SameRunsKeep(s, Step(s, op));
    case Resolve(id) => NamedKeeps(s, id, Resolved);
    case Reject(id) => NamedKeeps(s, id, Rejected);
    case RetainPaths(paths) => SettleKeeps(s, OpenRuns(s.runs, (r: RunRecord) => r.testPath !in paths), Resolved);
    case RejectAll => SettleKeeps(s, OpenRuns(s.runs, (r: RunRecord) => true), Rejected);
    case SetTransportEpoch(epoch) => EpochKeeps(s, epoch);
    case BootTimerFires(id) =>
      SameRunsKeep(s, s.(bootTimers := s.bootTimers - {id}));
      NamedKeeps(s.(bootTimers := s.bootTimers - {id}), id, Rejected);
    case CleanupTimerFires(id) =>
      SameRunsKeep(s, s.(cleanupTimers := s.cleanupTimers - {id}));
      if IsOpen(s, id) {
        ClaimKeeps(s.(cleanupTimers := s.cleanupTimers - {id}), id);
      }
  }

  lemma {:induction false} SameRunsKeep(s: State, t: State)
    requires Sound(s) && t == s.(bootTimers := t.bootTimers, cleanupTimers := t.cleanupTimers, booted := t.booted)
    requires t.bootTimers <= s.bootTimers && t.cleanupTimers <= s.runs.Keys && t.booted <= s.deferreds.Keys
        && t.booted !! t.bootTimers
    ensures Sound(t)
  {
    forall id | id in t.deferreds ensures RunOk(t, id) {
      assert RunOk(s, id);
    }
    assert forall i :: IsOpen(t, i) <==> IsOpen(s, i);
  }

  lemma {:induction false} NamedKeeps(s: State, id: RunId, outcome: Outcome)
    requires Sound(s)
    ensures Sound(SettleNamed(s, id, outcome))
  {
    if id in s.runs {
      SettleKeeps(s, {id}, outcome);
    }
  }

  /** With arming only after an admit, no claimed run keeps a boot timer. */
  lemma {:induction false} StepKeepsGated(s: State, op: Op)
    requires Sound(s) && Gated(s) && Enabled(s, op) && ArmsAfterAdmit(s, op)
    ensures Gated(Step(s, op)) && ClaimedHasNoBootTimer(Step(s, op))
  {
    StepKeepsSound(s, op);
  }

  /**
   Without that rule one step, and only that, gives a claimed run a boot timer: a cleanup deadline expiring on an open
   run that has never been heard of.
   */
  lemma {:induction false} BootTimerOnClaimedIff(s: State, op: Op)
    requires Sound(s) && ClaimedHasNoBootTimer(s) && Enabled(s, op)
    ensures ClaimedHasNoBootTimer(Step(s, op))
        <==> !(op.CleanupTimerFires? && IsOpen(s, op.runId) && op.runId in s.bootTimers)
  {
    var t := Step(s, op);
    if op.CleanupTimerFires? && IsOpen(s, op.runId) && op.runId in s.bootTimers {
      assert IsClaimed(t, op.runId) && op.runId in t.bootTimers;
    }
  }

  // ----- whole runs -----

  ghost function After(s: State, ops: seq<Op>): State {
    if ops == [] then s else Step(After(s, ops[..|ops| - 1]), ops[|ops| - 1])
  }

  ghost predicate Possible(s: State, ops: seq<Op>) {
    forall k :: 0 <= k < |ops| ==> Enabled(After(s, ops[..k]), ops[k])
  }

  ghost predicate Disciplined(s: State, ops: seq<Op>) {
    forall k :: 0 <= k < |ops| ==> ArmsAfterAdmit(After(s, ops[..k]), ops[k])
  }

  lemma {:induction false} Shorter(s: State, ops: seq<Op>)
    requires ops != []
    ensures var front := ops[..|ops| - 1];
      && (Possible(s, ops) ==> Possible(s, front) && Enabled(After(s, front), ops[|ops| - 1]))
      && (Disciplined(s, ops) ==> Disciplined(s, front) && ArmsAfterAdmit(After(s, front), ops[|ops| - 1]))
  {
    var front := ops[..|ops| - 1];
    forall k | 0 <= k < |front| ensures front[..k] == ops[..k] && front[k] == ops[k] {
    }
  }

  lemma {:induction false} OneOp(s: State, op: Op)
    ensures After(s, [op]) == Step(s, op)
    ensures Enabled(s, op) ==> Possible(s, [op])
    ensures ArmsAfterAdmit(s, op) ==> Disciplined(s, [op])
  {
    assert [op][..0] == [];
    assert After(s, []) == s;
  }

  lemma {:induction false} TwoOps(s: State, first: Op, second: Op)
    requires Enabled(s, first) && ArmsAfterAdmit(s, first)
    requires Enabled(Step(s, first), second) && ArmsAfterAdmit(Step(s, first), second)
    ensures var ops := [first, second];
      After(s, ops) == Step(Step(s, first), second) && Possible(s, ops) && Disciplined(s, ops)
  {
    var ops := [first, second];
    OneOp(s, first);
    assert ops[..0] == [] && ops[..1] == [first];
    assert After(s, []) == s;
  }

  lemma {:induction false} SoundAfter(s: State, ops: seq<Op>)
    requires Sound(s) && Possible(s, ops)
    ensures Sound(After(s, ops))
  {
    if ops != [] {
      Shorter(s, ops);
      SoundAfter(s, ops[..|ops| - 1]);
      StepKeepsSound(After(s, ops[..|ops| - 1]), ops[|ops| - 1]);
    }
  }

  lemma {:induction false} GatedAfter(s: State, ops: seq<Op>)
    requires Sound(s) && Gated(s) && Possible(s, ops) && Disciplined(s, ops)
    ensures Gated(After(s, ops))
  {
    if ops != [] {
      var front := ops[..|ops| - 1];
      Shorter(s, ops);
      SoundAfter(s, front);
      GatedAfter(s, front);
      StepKeepsGated(After(s, front), ops[|ops| - 1]);
    }
  }

  /**
   In every run, gated or not: a run's promise is settled once exactly when it has left the table and never otherwise,
   a run is claimed at most once, one open run exists per path, and every open run carries the current epoch.
   */
  lemma {:induction false} SettledAndClaimedAtMostOnce(ops: seq<Op>)
    requires Possible(Initial(), ops)
    ensures var s := After(Initial(), ops);
      && (forall id :: id in s.deferreds ==> |s.deferreds[id]| == (if id in s.runs then 0 else 1) && s.claims[id] <= 1)
      && (forall i, j :: IsOpen(s, i) && IsOpen(s, j) && s.runs[i].testPath == s.runs[j].testPath ==> i == j)
      && (forall id :: IsOpen(s, id) ==> s.runs[id].epoch == s.epoch)
  {
    SoundAfter(Initial(), ops);
    var s := After(Initial(), ops);
    forall id | id in s.deferreds ensures |s.deferreds[id]| == (if id in s.runs then 0 else 1) && s.claims[id] <= 1 {
      assert RunOk(s, id);
    }
  }

  ghost predicate Names(op: Op, id: RunId) {
    (op.Resolve? || op.Reject?) && op.runId == id
  }

  lemma {:induction false} ClaimedStays(s: State, op: Op, id: RunId)
    requires Sound(s) && Gated(s) && Enabled(s, op) && IsClaimed(s, id) && !Names(op, id)
    ensures IsClaimed(Step(s, op), id) && Step(s, op).claims[id] == s.claims[id]
  {
  }

  /**
   A claimed run is settled only by a resolve or reject naming it: any run of other steps leaves it claimed, with its
   promise pending.
   */
  lemma {:induction false} ClaimedUntilNamed(s: State, ops: seq<Op>, id: RunId)
    requires Sound(s) && Gated(s) && Possible(s, ops) && Disciplined(s, ops) && IsClaimed(s, id)
    requires forall op :: op in ops ==> !Names(op, id)
    ensures IsClaimed(After(s, ops), id) && id in After(s, ops).deferreds && After(s, ops).deferreds[id] == []
  {
    if ops == [] {
      assert RunOk(s, id);
    } else {
      var front := ops[..|ops| - 1];
      Shorter(s, ops);
      SoundAfter(s, front);
      GatedAfter(s, front);
      ClaimedUntilNamed(s, front, id);
      ClaimedStays(After(s, front), ops[|ops| - 1], id);
      SoundAfter(s, ops);
      assert RunOk(After(s, ops), id);
    }
  }

  /** Once a run has left the table no message of it is admitted again, and its outcome stays what it was. */
  lemma {:induction false} SettledStaysSettled(s: State, ops: seq<Op>, id: RunId)
    requires Sound(s) && Possible(s, ops) && id in s.deferreds && id !in s.runs
    ensures var t := After(s, ops);
      id in t.deferreds && t.deferreds[id] == s.deferreds[id] && forall terminal :: !Admits(t, id, terminal)
  {
    if ops != [] {
      var front := ops[..|ops| - 1];
      Shorter(s, ops);
      SettledStaysSettled(s, front, id);
      SoundAfter(s, front);
      assert id !in After(s, front).runs by {
        assert !Admits(After(s, front), id, false);
      }
      SettledStep(After(s, front), ops[|ops| - 1], id);
    }
  }

  lemma {:induction false} SettledStep(s: State, op: Op, id: RunId)
    requires Sound(s) && Enabled(s, op) && id in s.deferreds && id !in s.runs
    ensures id in Step(s, op).deferreds && Step(s, op).deferreds[id] == s.deferreds[id] && id !in Step(s, op).runs
  {
  }

  /** A new transport settles every open run and leaves the claimed ones to their handlers. */
  lemma {:induction false} NewTransportSweeps(s: State, epoch: int)
    requires Sound(s) && s.epoch < epoch
    ensures var t := Step(s, SetTransportEpoch(epoch));
      && (forall id :: !IsOpen(t, id))
      && (forall id :: IsClaimed(s, id) <==> IsClaimed(t, id))
      && (forall id :: IsOpen(s, id) ==> t.deferreds[id] == [Rejected])
  {
    forall id | IsOpen(s, id) ensures s.runs[id].epoch < epoch && s.deferreds[id] == [] {
      assert RunOk(s, id);
    }
  }

  // Exactly the chosen runs leave the table, all with one outcome; the others stay as they were.
  ghost predicate Swept(s: State, t: State, chosen: set<RunId>, outcome: Outcome) {
    && (forall id :: id in s.runs ==> (id !in t.runs <==> id in chosen))
    && (forall id :: id in s.runs && id in t.runs ==> t.runs[id] == s.runs[id])
    && (forall id :: id in chosen ==> id in t.deferreds && t.deferreds[id] == [outcome])
  }

  lemma {:induction false} SettleSweeps(s: State, ids: set<RunId>, outcome: Outcome)
    requires Sound(s) && ids <= s.runs.Keys
    ensures Swept(s, Settle(s, ids, outcome), ids, outcome)
  {
    forall id | id in ids ensures s.deferreds[id] == [] {
      assert RunOk(s, id);
    }
  }

  /** A commit resolves exactly the open runs whose path left the set. */
  lemma {:induction false} CommitSweeps(s: State, paths: set<string>)
    requires Sound(s)
    ensures Swept(s, Step(s, RetainPaths(paths)),
        (set id | id in s.runs && IsOpen(s, id) && s.runs[id].testPath !in paths), Resolved)
  {
    var left := OpenRuns(s.runs, (r: RunRecord) => r.testPath !in paths);
    SettleSweeps(s, left, Resolved);
    assert left == set id | id in s.runs && IsOpen(s, id) && s.runs[id].testPath !in paths;
  }

  /** Losing the transport rejects exactly the open runs. */
  lemma {:induction false} DisconnectSweeps(s: State)
    requires Sound(s)
    ensures Swept(s, Step(s, RejectAll), (set id | id in s.runs && IsOpen(s, id)), Rejected)
  {
    var all := OpenRuns(s.runs, (r: RunRecord) => true);
    SettleSweeps(s, all, Rejected);
    assert all == set id | id in s.runs && IsOpen(s, id);
  }

  // Recording a new run leaves the swept ones as they are.
  lemma {:induction false} RecordAfterSweep(s: State, t: State, u: State, chosen: set<RunId>, outcome: Outcome,
      id: RunId, record: RunRecord)
    requires Swept(s, t, chosen, outcome) && id !in s.runs && id !in chosen
    requires u.runs == t.runs[id := record] && u.deferreds == t.deferreds[id := []]
    ensures Swept(s, u, chosen, outcome)
  {
  }

  /** A new run resolves an open predecessor for its path as obsolete; it is open itself. */
  lemma {:induction false} MintSupersedes(s: State, id: RunId, testPath: string)
    requires Sound(s) && id !in s.deferreds
    ensures var t := Step(s, Mint(id, testPath));
      && Swept(s, t, (set i | i in s.runs && IsOpen(s, i) && s.runs[i].testPath == testPath), Resolved)
      && IsOpen(t, id) && t.runs[id].testPath == testPath && t.deferreds[id] == [] && id in t.bootTimers
  {
    var older := OpenRuns(s.runs, (r: RunRecord) => r.testPath == testPath);
    SettleSweeps(s, older, Resolved);
    assert older == set i | i in s.runs && IsOpen(s, i) && s.runs[i].testPath == testPath;
    RecordAfterSweep(s, Settle(s, older, Resolved), Step(s, Mint(id, testPath)), older, Resolved, id,
      RunRecord(testPath, s.epoch, Open));
  }

  // ----- timers -----

  lemma {:induction false} UnarmedStep(s: State, op: Op, id: RunId)
    requires id !in s.cleanupTimers && !(op.ArmCleanup? && op.runId == id)
    ensures id !in Step(s, op).cleanupTimers
  {
  }

  lemma {:induction false} UnarmedUntilArmed(s: State, ops: seq<Op>, id: RunId)
    requires id !in s.cleanupTimers && forall op :: op in ops ==> !(op.ArmCleanup? && op.runId == id)
    ensures id !in After(s, ops).cleanupTimers
  {
    if ops != [] {
      var front, last := ops[..|ops| - 1], ops[|ops| - 1];
      assert ops == front + [last];
      UnarmedUntilArmed(s, front, id);
      UnarmedStep(After(s, front), last, id);
    }
  }

  /** A disarmed deadline cannot claim its run, through anything but arming it again. */
  lemma {:induction false} DisarmedCannotClaim(s: State, ops: seq<Op>, id: RunId)
    requires Sound(s) && forall op :: op in ops ==> !(op.ArmCleanup? && op.runId == id)
    ensures !Enabled(After(Step(s, DisarmCleanup(id)), ops), CleanupTimerFires(id))
  {
    UnarmedUntilArmed(Step(s, DisarmCleanup(id)), ops, id);
  }

  /** An armed one can, and then does: an open run is claimed by its deadline. */
  lemma {:induction false} ArmedCanClaim(s: State, id: RunId)
    requires IsOpen(s, id)
    ensures Enabled(Step(s, ArmCleanup(id)), CleanupTimerFires(id))
    ensures IsClaimed(Step(Step(s, ArmCleanup(id)), CleanupTimerFires(id)), id)
  {
  }

  lemma {:induction false} UnbootedStep(s: State, op: Op, id: RunId)
    requires id !in s.bootTimers && !(op.Mint? && op.runId == id)
    ensures id !in Step(s, op).bootTimers
  {
  }

  lemma {:induction false} UnbootedStays(s: State, ops: seq<Op>, id: RunId)
    requires id !in s.bootTimers && forall op :: op in ops ==> !(op.Mint? && op.runId == id)
    ensures id !in After(s, ops).bootTimers
  {
    if ops != [] {
      var front, last := ops[..|ops| - 1], ops[|ops| - 1];
      assert ops == front + [last];
      UnbootedStays(s, front, id);
      UnbootedStep(After(s, front), last, id);
    }
  }

  /** A run that was heard of is never rejected by its boot timer. */
  lemma {:induction false} HeardIsBooted(s: State, terminal: bool, ops: seq<Op>, id: RunId)
    requires id in s.runs && forall op :: op in ops ==> !(op.Mint? && op.runId == id)
    ensures !Enabled(After(Step(s, Admit(id, terminal)), ops), BootTimerFires(id))
  {
    UnbootedStays(Step(s, Admit(id, terminal)), ops, id);
  }

  /** One that was not is, when its boot timer fires. */
  lemma {:induction false} BootTimerRejects(s: State, id: RunId)
    requires Sound(s) && Enabled(s, BootTimerFires(id))
    ensures var t := Step(s, BootTimerFires(id)); id !in t.runs && id in t.deferreds && t.deferreds[id] == [Rejected]
  {
    assert RunOk(s, id);
  }

  /** Armed without a message: the deadline claims the run, and the boot timer then rejects it under its handler. */
  lemma {:induction false} UngatedArmingLosesClaim(id: RunId, testPath: string)
    ensures var ops := [Mint(id, testPath), ArmCleanup(id), CleanupTimerFires(id), BootTimerFires(id)];
      Possible(Initial(), ops) && !Disciplined(Initial(), ops)
      && IsClaimed(After(Initial(), ops[..3]), id)
      && id in After(Initial(), ops).deferreds && After(Initial(), ops).deferreds[id] == [Rejected]
  {
    var ops := [Mint(id, testPath), ArmCleanup(id), CleanupTimerFires(id), BootTimerFires(id)];
    var s0 := Initial();
    var s1 := Step(s0, ops[0]);
    var s2 := Step(s1, ops[1]);
    var s3 := Step(s2, ops[2]);
    UngatedStates(id, testPath);
    assert ops[..0] == [] && ops[..1][..0] == [] && ops[..2][..1] == ops[..1] && ops[..3][..2] == ops[..2]
        && ops[..4][..3] == ops[..3] && ops[..4] == ops;
    assert After(s0, ops[..0]) == s0;
    assert After(s0, ops[..1]) == s1;
    assert After(s0, ops[..2]) == s2;
    assert After(s0, ops[..3]) == s3;
    assert After(s0, ops) == Step(s3, ops[3]);
    assert !ArmsAfterAdmit(s1, ops[1]);
  }

  lemma {:induction false} UngatedStates(id: RunId, testPath: string)
    ensures var s1 := Step(Initial(), Mint(id, testPath));
      var s2 := Step(s1, ArmCleanup(id));
      var s3 := Step(s2, CleanupTimerFires(id));
      && s1 == State(map[id := RunRecord(testPath, 0, Open)], 0, {id}, {}, map[id := []], multiset{}, {})
      && s2 == s1.(cleanupTimers := {id})
      && s3 == s1.(runs := map[id := RunRecord(testPath, 0, Claimed)], claims := multiset{id})
      && id in Step(s3, BootTimerFires(id)).deferreds && Step(s3, BootTimerFires(id)).deferreds[id] == [Rejected]
  {
    var s1 := Step(Initial(), Mint(id, testPath));
    assert s1.runs == map[id := RunRecord(testPath, 0, Open)] && s1.bootTimers == {id} && s1.cleanupTimers == {};
    assert s1.deferreds == map[id := []];
    var s3 := Step(Step(s1, ArmCleanup(id)), CleanupTimerFires(id));
    assert s3.runs == map[id := RunRecord(testPath, 0, Claimed)] && s3.cleanupTimers == {} && s3.claims == multiset{id};
    assert s3.deferreds == map[id := []] && id in s3.runs;
    var settled := Settle(s3.(bootTimers := s3.bootTimers - {id}), {id}, Rejected);
    assert Step(s3, BootTimerFires(id)) == settled;
    assert settled.deferreds[id] == [] + [Rejected];
  }

  // ----- the registry object -----

  class HeadedRunRegistry {
    var runsById: map<RunId, RunRecord>
    var transportEpoch: int
    var bootTimers: set<RunId>
    var cleanupTimers: set<RunId>
    var deferreds: map<RunId, seq<Outcome>>
    ghost var claims: multiset<RunId>
    ghost var booted: set<RunId>

    ghost function Value(): State
      reads this
    {
      State(runsById, transportEpoch, bootTimers, cleanupTimers, deferreds, claims, booted)
    }

    ghost predicate Valid()
      reads this
    {
      runsById.Keys <= deferreds.Keys
    }

    constructor ()
      ensures Valid() && Value() == Initial()
    {
      runsById, transportEpoch, bootTimers, cleanupTimers, deferreds := map[], 0, {}, {}, map[];
      claims, booted := multiset{}, {};
    }

    // The one guarded delete.
    method SettleRecord(runId: RunId, outcome: Outcome)
      requires Valid()
      modifies this
      ensures Valid() && Value() == SettleNamed(old(Value()), runId, outcome)
    {
      if runId !in runsById {
        return;
      }
      runsById := runsById - {runId};
      bootTimers := bootTimers - {runId};
      cleanupTimers := cleanupTimers - {runId};
      deferreds := deferreds[runId := deferreds[runId] + [outcome]];
      assert deferreds == Settle(old(Value()), {runId}, outcome).deferreds;
    }

    method SweepOpen(swept: RunRecord -> bool, outcome: Outcome)
      requires Valid()
      modifies this
      ensures Valid() && Value() == Sweep(old(Value()), swept, outcome)
    {
      var pending := runsById.Keys;
      ghost var before, done: set<RunId> := Value(), {};
      assert Value() == Settle(before, done, outcome);
      while pending != {}
        invariant Valid() && pending <= runsById.Keys
        invariant Sweeping(before, swept, done, pending)
        invariant Value() == Settle(before, done, outcome)
        decreases pending
      {
        var runId :| runId in pending;
        SweepTurn(before, swept, done, pending, runId, outcome);
        pending := pending - {runId};
        if runsById[runId].phase == Open && swept(runsById[runId]) {
          SettleRecord(runId, outcome);
          done := done + {runId};
        }
      }
      assert done == OpenRuns(before.runs, swept);
    }

    method Mint(runId: RunId, testPath: string)
      requires Valid()
      modifies this
      ensures Valid() && Value() == Step(old(Value()), Op.Mint(runId, testPath))
    {
      SweepOpen((r: RunRecord) => r.testPath == testPath, Resolved);
      bootTimers := bootTimers + {runId};
      deferreds := deferreds[runId := []];
      runsById := runsById[runId := RunRecord(testPath, transportEpoch, Open)];
    }

    method Admit(runId: RunId, terminal: bool) returns (admitted: bool)
      requires Valid()
      modifies this
      ensures Valid() && Value() == Step(old(Value()), Op.Admit(runId, terminal))
      ensures admitted == Admits(old(Value()), runId, terminal)
    {
      if runId !in runsById {
        return false;
      }
      bootTimers := bootTimers - {runId};
      booted := booted + {runId};
      if !terminal {
        return true;
      }
      if runsById[runId].phase != Open {
        return false;
      }
      runsById := runsById[runId := runsById[runId].(phase := Claimed)];
      claims := claims + multiset{runId};
      return true;
    }

    method ArmCleanupDeadline(runId: RunId)
      requires Valid()
      modifies this
      ensures Valid() && Value() == Step(old(Value()), ArmCleanup(runId))
    {
      if runId !in runsById || runsById[runId].phase != Open {
        return;
      }
      cleanupTimers := cleanupTimers - {runId};
      cleanupTimers := cleanupTimers + {runId};
    }

    method CleanupDeadlineExpires(runId: RunId) returns (claimed: bool)
      requires Valid()
      modifies this
      ensures Valid() && Value() == Step(old(Value()), CleanupTimerFires(runId))
      ensures claimed == IsOpen(old(Value()), runId)
    {
      cleanupTimers := cleanupTimers - {runId};
      if runId !in runsById || runsById[runId].phase != Open {
        return false;
      }
      runsById := runsById[runId := runsById[runId].(phase := Claimed)];
      claims := claims + multiset{runId};
      return true;
    }

    method BootDeadlineExpires(runId: RunId)
      requires Valid()
      modifies this
      ensures Valid() && Value() == Step(old(Value()), BootTimerFires(runId))
    {
      bootTimers := bootTimers - {runId};
      if runId in runsById {
        SettleRecord(runId, Rejected);
      }
    }

    method DisarmCleanupDeadline(runId: RunId)
      requires Valid()
      modifies this
      ensures Valid() && Value() == Step(old(Value()), DisarmCleanup(runId))
    {
      if runId in runsById {
        cleanupTimers := cleanupTimers - {runId};
      }
    }

    method Resolve(runId: RunId)
      requires Valid()
      modifies this
      ensures Valid() && Value() == Step(old(Value()), Op.Resolve(runId))
    {
      if runId in runsById {
        SettleRecord(runId, Resolved);
      }
    }

    method Reject(runId: RunId)
      requires Valid()
      modifies this
      ensures Valid() && Value() == Step(old(Value()), Op.Reject(runId))
    {
      if runId in runsById {
        SettleRecord(runId, Rejected);
      }
    }

    method RetainPaths(paths: set<string>)
      requires Valid()
      modifies this
      ensures Valid() && Value() == Step(old(Value()), Op.RetainPaths(paths))
    {
      SweepOpen((r: RunRecord) => r.testPath !in paths, Resolved);
    }

    method RejectAll()
      requires Valid()
      modifies this
      ensures Valid() && Value() == Step(old(Value()), Op.RejectAll)
    {
      SweepOpen((r: RunRecord) => true, Rejected);
    }

    method SetTransportEpoch(epoch: int)
      requires Valid()
      modifies this
      ensures Valid() && Value() == Step(old(Value()), Op.SetTransportEpoch(epoch))
    {
      transportEpoch := epoch;
      SweepOpen((r: RunRecord) => r.epoch < epoch, Rejected);
    }
  }

  // The runs settled so far are to be swept, and whatever else is to be swept is still pending.
  ghost predicate Sweeping(s: State, swept: RunRecord -> bool, done: set<RunId>, pending: set<RunId>) {
    done <= OpenRuns(s.runs, swept) <= done + pending && done !! pending && pending <= s.runs.Keys
  }

  lemma {:induction false} SweepTurn(s: State, swept: RunRecord -> bool, done: set<RunId>, pending: set<RunId>,
      id: RunId, outcome: Outcome)
    requires Sweeping(s, swept, done, pending) && id in pending
    ensures var chosen := s.runs[id].phase == Open && swept(s.runs[id]);
      Sweeping(s, swept, if chosen then done + {id} else done, pending - {id})
    ensures id in Settle(s, done, outcome).runs && Settle(s, done, outcome).runs[id] == s.runs[id]
    ensures SettleNamed(Settle(s, done, outcome), id, outcome) == Settle(s, done + {id}, outcome)
  {
    SettleMore(s, done, id, outcome);
  }

  lemma {:induction false} SettleMore(s: State, done: set<RunId>, id: RunId, outcome: Outcome)
    requires id in s.runs && id !in done
    ensures SettleNamed(Settle(s, done, outcome), id, outcome) == Settle(s, done + {id}, outcome)
  {
    var t := SettleNamed(Settle(s, done, outcome), id, outcome);
    var u := Settle(s, done + {id}, outcome);
    assert t.runs == u.runs && t.bootTimers == u.bootTimers && t.cleanupTimers == u.cleanupTimers;
    assert t.deferreds == u.deferreds;
  }
}
