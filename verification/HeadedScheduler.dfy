/** Headed runs of one scheduler entry: a serial queue of reload tasks over the shared registry and gate. */
module HeadedScheduler {
  import opened Wrappers
  import opened RunRegistry
  import G = DispatchGate
  import Q = SerialTaskQueue

  // Where a started task is suspended: opening coverage, about to mint, awaiting its run, flushing coverage after it.
  datatype Stage = Opening | Minting | Awaiting(runId: RunId) | Flushing(runId: RunId)

  /**
   `mine` maps every run this entry minted to its task, `session` is the task whose coverage session is on. Other
   entries may use the same gate and registry.
   */
  datatype System = System(gate: G.Gate, chain: Q.Chain, stages: map<nat, Stage>, mine: map<RunId, nat>,
      session: Option<nat>)

  datatype Event =
    | Enqueue
    | TailSettles(task: nat)
    | TaskStarts(task: nat, skipped: bool)          // skipped: a fatal error stands, or the file left the set
    | CoverageOpens(task: nat, ready: bool, on: bool)
    | TaskMints(task: nat, runId: RunId, testPath: string)
    | RunSettled(task: nat)
    | CoverageFlushed(task: nat)
    | GateMoves(event: G.Event)

  ghost function Fresh(): System {
    System(G.Fresh(), Q.Empty(), map[], map[], None)
  }

  ghost predicate AtStage(s: System, k: nat, stage: Stage) {
    k in s.stages && s.stages[k] == stage
  }

  ghost predicate Can(s: System, e: Event) {
    match e
    case Enqueue => true
    case TailSettles(k) => Q.Enabled(s.chain, Q.SettleTail(k))
    case TaskStarts(k, _) => Q.Enabled(s.chain, Q.Start(k))
    case CoverageOpens(k, _, _) => AtStage(s, k, Opening)
    case TaskMints(k, id, _) => AtStage(s, k, Minting) && id !in s.gate.reg.deferreds
    case RunSettled(k) => k in s.stages && s.stages[k].Awaiting? && s.stages[k].runId !in s.gate.reg.runs
    case CoverageFlushed(k) => k in s.stages && s.stages[k].Flushing?
    case GateMoves(_) => true
  }

  // A task's promise settles as its run did.
  ghost predicate RunResolved(s: System, id: RunId) {
    id in s.gate.reg.deferreds && s.gate.reg.deferreds[id] == [Resolved]
  }

  ghost function Next(s: System, e: Event): System {
    if !Can(s, e) then s else
    match e
    case Enqueue => s.(chain := Q.Next(s.chain, Q.Enqueue))
    case TailSettles(k) => s.(chain := Q.Next(s.chain, Q.SettleTail(k)))
    case TaskStarts(k, skipped) =>
      var running := Q.Next(s.chain, Q.Start(k));
      if skipped then s.(chain := Q.Next(running, Q.Settle(k, true)))
          else s.(chain := running, stages := s.stages[k := Opening])
    case CoverageOpens(k, ready, on) =>
      if ready then s.(stages := s.stages[k := Minting], session := if on then Some(k) else s.session)
      else s.(chain := Q.Next(s.chain, Q.Settle(k, false)), stages := s.stages - {k})
    case TaskMints(k, id, testPath) =>
      s.(gate := G.Next(s.gate, G.RunStarts(id, testPath)), stages := s.stages[k := Awaiting(id)],
          mine := s.mine[id := k])
    case RunSettled(k) => s.(stages := s.stages[k := Flushing(s.stages[k].runId)], session := None)
    case CoverageFlushed(k) =>
      s.(chain := Q.Next(s.chain, Q.Settle(k, RunResolved(s, s.stages[k].runId))), stages := s.stages - {k})
    case GateMoves(event) =>
      s.(gate := G.Next(s.gate, event),
         session := if event.Terminal? && Admits(s.gate.reg, event.runId, true) then None else s.session)
  }

  // ----- what every event keeps -----

  ghost predicate IsRunning(c: Q.Chain, k: nat) {
    k < |c.tasks| && c.tasks[k].progress == Q.Running
  }

  ghost predicate StagesOk(s: System) {
    && (forall k: nat :: k in s.stages <==> IsRunning(s.chain, k))
    && (forall k: nat :: k in s.stages && (s.stages[k].Awaiting? || s.stages[k].Flushing?) ==>
        s.stages[k].runId in s.mine)
  }

  /** The task is over: its run has left the registry, and it was fulfilled exactly if the run was resolved. */
  ghost predicate EndedAsRun(s: System, k: nat, id: RunId) {
    && id !in s.gate.reg.runs
    && k < |s.chain.tasks| && Q.Finished(s.chain.tasks[k])
    && (s.chain.tasks[k].progress == Q.Fulfilled <==> RunResolved(s, id))
  }

  // A run of this entry is awaited by its task, or gone while that flushes coverage, or gone with the task over.
  ghost predicate MineOk(s: System, id: RunId)
    requires id in s.mine
  {
    var k := s.mine[id];
    && id in s.gate.reg.deferreds
    && if k !in s.stages then EndedAsRun(s, k, id)
       else s.stages[k] == Awaiting(id) || (s.stages[k] == Flushing(id) && id !in s.gate.reg.runs)
  }

  ghost predicate SessionOk(s: System) {
    s.session.Some? ==>
      && s.session.value in s.stages
      && (s.stages[s.session.value].Minting? || s.stages[s.session.value].Awaiting?)
  }

  ghost predicate SystemOk(s: System) {
    && G.GateOk(s.gate) && Q.Serial(s.chain) && StagesOk(s) && SessionOk(s)
    && forall id :: id in s.mine ==> MineOk(s, id)
  }

  lemma {:induction false} OneStage(s: System)
    requires SystemOk(s)
    ensures forall j, k :: j in s.stages && k in s.stages ==> j == k
  {
    forall j, k | j in s.stages && k in s.stages ensures j == k {
      assert IsRunning(s.chain, j) && IsRunning(s.chain, k);
    }
  }

  // The gate brings no run of this entry back, and an ended one keeps its outcome.
  lemma {:induction false} GateKeepsMine(s: System, e: G.Event, id: RunId)
    requires SystemOk(s) && id in s.mine
    ensures MineOk(s.(gate := G.Next(s.gate, e)), id)
  {
    assert MineOk(s, id);
    G.MintedStays(s.gate, e, id);
    if id !in s.gate.reg.runs {
      assert RunOk(s.gate.reg, id);
      G.EndedStep(s.gate, e, id, s.gate.reg.deferreds[id]);
    }
  }

  lemma {:induction false} GateMoveFits(s: System, e: G.Event)
    requires SystemOk(s)
    ensures SystemOk(Next(s, GateMoves(e)))
  {
    G.NextKeepsOk(s.gate, e);
    var t := Next(s, GateMoves(e));
    forall id | id in t.mine ensures MineOk(t, id) {
      GateKeepsMine(s, e, id);
    }
  }

  // A task that has not minted has no run.
  lemma {:induction false} NoRunYet(s: System, k: nat, id: RunId)
    requires SystemOk(s) && id in s.mine && k in s.stages && (s.stages[k].Opening? || s.stages[k].Minting?)
    ensures s.mine[id] != k
  {
    assert MineOk(s, id);
  }

  lemma {:induction false} MintFits(s: System, k: nat, id: RunId, testPath: string)
    requires SystemOk(s) && Can(s, TaskMints(k, id, testPath))
    ensures SystemOk(Next(s, TaskMints(k, id, testPath)))
  {
    OneStage(s);
    var e := G.RunStarts(id, testPath);
    G.NextKeepsOk(s.gate, e);
    var t := Next(s, TaskMints(k, id, testPath));
    forall i | i in t.mine ensures MineOk(t, i) {
      if i in s.mine {
        assert MineOk(s, i);
        NoRunYet(s, k, i);
        GateKeepsMine(s, e, i);
      }
    }
  }

  // The queue moves without starting or ending a task.
  lemma {:induction false} QueueMoveFits(s: System, e: Q.Event)
    requires SystemOk(s) && (e.Enqueue? || e.SettleTail?)
    ensures SystemOk(s.(chain := Q.Next(s.chain, e)))
  {
    var t := s.(chain := Q.Next(s.chain, e));
    Q.NextKeepsSerial(s.chain, e);
    forall k: nat ensures IsRunning(t.chain, k) <==> IsRunning(s.chain, k) {
    }
    forall id | id in t.mine ensures MineOk(t, id) {
      assert MineOk(s, id);
    }
  }

  lemma {:induction false} StartFits(s: System, k: nat, skipped: bool)
    requires SystemOk(s) && Can(s, TaskStarts(k, skipped))
    ensures SystemOk(Next(s, TaskStarts(k, skipped)))
  {
    var t := Next(s, TaskStarts(k, skipped));
    var running := Q.Next(s.chain, Q.Start(k));
    Q.NextKeepsSerial(s.chain, Q.Start(k));
    Q.NextKeepsSerial(running, Q.Settle(k, true));
    assert running.tasks[k].progress == Q.Running;
    forall j: nat ensures IsRunning(t.chain, j) <==> IsRunning(s.chain, j) || (j == k && !skipped) {
    }
    forall id | id in t.mine ensures MineOk(t, id) {
      assert MineOk(s, id);
    }
  }

  // A task ends, and its stage with it; one that has minted ends as its run did.
  lemma {:induction false} EndFits(s: System, k: nat, fulfilled: bool)
    requires SystemOk(s) && k in s.stages
    requires s.stages[k].Opening? || (s.stages[k].Flushing? && fulfilled == RunResolved(s, s.stages[k].runId))
    ensures SystemOk(s.(chain := Q.Next(s.chain, Q.Settle(k, fulfilled)), stages := s.stages - {k}))
  {
    var t := s.(chain := Q.Next(s.chain, Q.Settle(k, fulfilled)), stages := s.stages - {k});
    assert IsRunning(s.chain, k);
    Q.NextKeepsSerial(s.chain, Q.Settle(k, fulfilled));
    forall j: nat ensures IsRunning(t.chain, j) <==> IsRunning(s.chain, j) && j != k {
    }
    forall id | id in t.mine ensures MineOk(t, id) {
      assert MineOk(s, id);
    }
  }

  // A running task goes on to its next stage.
  lemma {:induction false} AdvanceFits(s: System, k: nat, stage: Stage, session: Option<nat>)
    requires SystemOk(s) && k in s.stages
    requires if stage == Minting then s.stages[k] == Opening
      else s.stages[k].Awaiting? && s.stages[k].runId !in s.gate.reg.runs && stage == Flushing(s.stages[k].runId)
    requires session == None || (stage == Minting && session == Some(k))
    ensures SystemOk(s.(stages := s.stages[k := stage], session := session))
  {
    var t := s.(stages := s.stages[k := stage], session := session);
    forall id | id in t.mine ensures MineOk(t, id) {
      assert MineOk(s, id);
    }
  }

  /** Every event keeps the system in order. */
  lemma {:induction false} NextKeepsOk(s: System, e: Event)
    requires SystemOk(s)
    ensures SystemOk(Next(s, e))
  {
    if Can(s, e) {
      match e
      case Enqueue => QueueMoveFits(s, Q.Enqueue);
      case TailSettles(k) => QueueMoveFits(s, Q.SettleTail(k));
      case TaskStarts(k, skipped) => StartFits(s, k, skipped);
      case CoverageOpens(k, ready, on) =>
        OneStage(s);
        if ready {
          AdvanceFits(s, k, Minting, if on then Some(k) else s.session);
        } else {
          EndFits(s, k, false);
        }
      case TaskMints(k, id, testPath) => MintFits(s, k, id, testPath);
      case RunSettled(k) => AdvanceFits(s, k, Flushing(s.stages[k].runId), None);
      case CoverageFlushed(k) => EndFits(s, k, RunResolved(s, s.stages[k].runId));
      case GateMoves(event) => GateMoveFits(s, event);
    }
  }

  // ----- whole runs -----

  ghost function After(events: seq<Event>): System {
    if events == [] then Fresh() else Next(After(events[..|events| - 1]), events[|events| - 1])
  }

  lemma {:induction false} AlwaysOk(events: seq<Event>)
    ensures SystemOk(After(events))
  {
    assert Q.Serial(Q.Empty()) && SystemOk(Fresh());
    if events != [] {
      AlwaysOk(events[..|events| - 1]);
      NextKeepsOk(After(events[..|events| - 1]), events[|events| - 1]);
    }
  }

  /**
   In every interleaving one entry has at most one live run, a run is minted only when every earlier one has left the
   registry, and tasks start in the order they were queued, each after all before it have finished.
   */
  lemma {:induction false} StrictlySerial(events: seq<Event>)
    ensures var s := After(events);
      && (forall i, j :: i in s.mine && j in s.mine && i in s.gate.reg.runs && j in s.gate.reg.runs ==> i == j)
      && (forall k, id, testPath, i :: Can(s, TaskMints(k, id, testPath)) && i in s.mine ==> i !in s.gate.reg.runs)
      && (forall k, skipped :: Can(s, TaskStarts(k, skipped)) ==> k == |s.chain.started| && forall j :: 0 <= j < k ==>
          Q.Finished(s.chain.tasks[j]))
  {
    AlwaysOk(events);
    var s := After(events);
    OneStage(s);
    forall i, j | i in s.mine && j in s.mine && i in s.gate.reg.runs && j in s.gate.reg.runs ensures i == j {
      assert MineOk(s, i) && MineOk(s, j);
    }
    forall k, id, testPath, i | Can(s, TaskMints(k, id, testPath)) && i in s.mine ensures i !in s.gate.reg.runs {
      assert MineOk(s, i);
    }
    forall k, skipped | Can(s, TaskStarts(k, skipped))
        ensures k == |s.chain.started| && forall j :: 0 <= j < k ==> Q.Finished(s.chain.tasks[j])
    {
      Q.NextKeepsSerial(s.chain, Q.Start(k));
    }
  }

  /** A coverage session is opened only when none is on, and an open one belongs to the task that is running. */
  lemma {:induction false} OneCoverageSession(events: seq<Event>)
    ensures var s := After(events);
      && (forall k, ready, on :: Can(s, CoverageOpens(k, ready, on)) ==> s.session == None)
      && (s.session.Some? ==> forall k :: k in s.stages ==> s.session == Some(k))
  {
    AlwaysOk(events);
    OneStage(After(events));
  }

  /** The queue never stalls: a waiting task is next, or a tail is due, or some task is running. */
  lemma {:induction false} NeverStalls(events: seq<Event>, k: nat)
    requires var s := After(events); k < |s.chain.tasks| && s.chain.tasks[k].progress == Q.Waiting && s.stages == map[]
    ensures var s := After(events); var n := |s.chain.started|;
      Can(s, TaskStarts(n, false)) || (n > 0 && Can(s, TailSettles(n - 1)))
  {
    AlwaysOk(events);
    var chain := After(events).chain;
    forall j | 0 <= j < |chain.tasks| ensures chain.tasks[j].progress != Q.Running {
      assert !IsRunning(chain, j);
    }
    Q.NeverBlocked(After(events).chain, k);
  }

  /**
   In every reachable state, a task that has minted a run and is over ended as that run did: the run has left the
   registry with its promise settled once, and the task is fulfilled exactly if the promise was resolved.
   */
  lemma {:induction false} TaskEndsAsItsRun(events: seq<Event>, id: RunId)
    requires id in After(events).mine
    ensures var s := After(events); var k := s.mine[id];
      && k < |s.chain.tasks| && id in s.gate.reg.deferreds
      && (Q.Finished(s.chain.tasks[k]) ==>
            && id !in s.gate.reg.runs && |s.gate.reg.deferreds[id]| == 1
            && (s.chain.tasks[k].progress == Q.Fulfilled <==> s.gate.reg.deferreds[id] == [Resolved]))
  {
    AlwaysOk(events);
    var s := After(events);
    assert MineOk(s, id) && RunOk(s.gate.reg, id);
    if s.mine[id] in s.stages {
      assert IsRunning(s.chain, s.mine[id]);
    }
  }

  lemma {:induction false} AfterNext(events: seq<Event>, e: Event)
    ensures After(events + [e]) == Next(After(events), e)
  {
    assert (events + [e])[..|events|] == events;
  }

  // A task that is over, as it ended, without ever having minted a run.
  ghost predicate EndedWithoutRun(s: System, k: nat, progress: Q.Progress) {
    && k < |s.chain.tasks| && s.chain.tasks[k].progress == progress && k !in s.stages
    && forall id :: id in s.mine ==> s.mine[id] != k
  }

  lemma {:induction false} EndedStays(s: System, e: Event, k: nat, progress: Q.Progress)
    requires SystemOk(s) && EndedWithoutRun(s, k, progress) && (progress == Q.Fulfilled || progress == Q.Rejected)
    ensures EndedWithoutRun(Next(s, e), k, progress)
  {
    if e.TaskStarts? {
      Q.FinishedStays(s.chain, Q.Start(e.task), k);
    }
  }

  lemma {:induction false} EndedThrough(events: seq<Event>, more: seq<Event>, k: nat, progress: Q.Progress)
    requires EndedWithoutRun(After(events), k, progress) && (progress == Q.Fulfilled || progress == Q.Rejected)
    ensures EndedWithoutRun(After(events + more), k, progress)
    decreases |more|
  {
    if more == [] {
      assert events + more == events;
    } else {
      var most, e := more[..|more| - 1], more[|more| - 1];
      assert events + more == events + most + [e];
      EndedThrough(events, most, k, progress);
      AlwaysOk(events + most);
      AfterNext(events + most, e);
      EndedStays(After(events + most), e, k, progress);
    }
  }

  // A task that is only now starting or opening coverage has minted nothing.
  lemma {:induction false} NothingMinted(s: System, k: nat)
    requires SystemOk(s) && k < |s.chain.tasks|
    requires s.chain.tasks[k].progress == Q.Waiting || AtStage(s, k, Opening)
    ensures forall id :: id in s.mine ==> s.mine[id] != k
  {
    forall id | id in s.mine ensures s.mine[id] != k {
      assert MineOk(s, id);
    }
  }

  /**
   A task that is skipped is fulfilled, one whose coverage cannot be opened is rejected; neither ever mints a run.
   */
  lemma {:induction false} EndsWithoutRun(events: seq<Event>, e: Event, k: nat, more: seq<Event>)
    requires Can(After(events), e) && (e == TaskStarts(k, true) || (e.CoverageOpens? && e.task == k && !e.ready))
    ensures EndedWithoutRun(After(events + [e] + more), k, if e.TaskStarts? then Q.Fulfilled else Q.Rejected)
  {
    AlwaysOk(events);
    var s := After(events);
    if e.CoverageOpens? {
      assert IsRunning(s.chain, k);
    } else {
      assert !IsRunning(s.chain, k);
    }
    NothingMinted(s, k);
    AfterNext(events, e);
    EndedThrough(events + [e], more, k, if e.TaskStarts? then Q.Fulfilled else Q.Rejected);
  }

  // Coverage is handed over when a terminal message is admitted, and dropped when the run is over.
  ghost predicate EndsSession(s: System, e: Event) {
    Can(s, e) && (e.RunSettled? || (e.GateMoves? && e.event.Terminal? && Admits(s.gate.reg, e.event.runId, true)))
  }

  /**
   A session that opens is the opening task's, and stays on until a terminal message is admitted or the run settled.
   */
  lemma {:induction false} SessionIff(events: seq<Event>, e: Event, k: nat)
    ensures var s, t := After(events), After(events + [e]);
      t.session == Some(k) <==>
        || (exists on :: on && e == CoverageOpens(k, true, on) && Can(s, e))
        || (s.session == Some(k) && !EndsSession(s, e))
  {
    AlwaysOk(events);
    AfterNext(events, e);
    OneStage(After(events));
  }
}
