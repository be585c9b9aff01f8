/**
 The inbound gate and the handlers behind it, interleaved with every other way a run can end. Code between two awaits is
 one event; coverage, handlers, recovery and deliveries end either way.
 */
module DispatchGate {
  import opened Wrappers
  import opened RunRegistry
  import opened DispatchRouter

  // A handler that owns a claimed run, by where it is suspended.
  datatype Handling = Collecting(complete: bool) | Routing(complete: bool, covered: bool) | Recovering

  /**
   `verdicts` is what each finished handler asked for, `deliveries` the reload calls still under way, `undelivered` the
   runs a failed one rejected.
   */
  datatype Gate = Gate(
    reg: State,
    handlers: map<RunId, Handling>,
    verdicts: map<RunId, Outcome>,
    deliveries: set<RunId>,
    undelivered: set<RunId>)

  datatype Event =
    | RunStarts(runId: RunId, testPath: string)
    | Message(runId: RunId)
    | Terminal(runId: RunId, complete: bool)
    | CleanupStarts(runId: RunId)
    | CleanupEnds(runId: RunId)
    | CleanupExpires(runId: RunId)
    | CoverageTaken(runId: RunId, taken: bool)
    | RouterAnswers(runId: RunId, response: Response)
    | Recovered(runId: RunId, recovered: bool)
    | Delivered(runId: RunId)
    | DeliveryFails(runId: RunId)
    | BootDeadline(runId: RunId)
    | FileSetCommits(paths: set<string>)
    | Disconnects
    | Attaches(epoch: int)

  ghost function Fresh(): Gate {
    Gate(Initial(), map[], map[], {}, {})
  }

  // A file-complete resolves its run unless the coverage or the handler failed; a fatal rejects it.
  function Verdict(complete: bool, covered: bool, response: Response): Outcome {
    if complete && covered && !HasError(response) then Resolved else Rejected
  }

  ghost function Finish(g: Gate, id: RunId, verdict: Outcome): Gate {
    g.(reg := SettleNamed(g.reg, id, verdict), handlers := g.handlers - {id}, verdicts := g.verdicts[id := verdict])
  }

  ghost predicate Can(g: Gate, e: Event) {
    match e
    case RunStarts(id, _) => id !in g.reg.deferreds
    case CleanupExpires(id) => id in g.reg.cleanupTimers
    case CoverageTaken(id, _) => id in g.handlers && g.handlers[id].Collecting?
    case RouterAnswers(id, _) => id in g.handlers && g.handlers[id].Routing?
    case Recovered(id, _) => id in g.handlers && g.handlers[id].Recovering?
    case Delivered(id) => id in g.deliveries
    case DeliveryFails(id) => id in g.deliveries
    case BootDeadline(id) => id in g.reg.bootTimers
    case Attaches(epoch) => g.reg.epoch < epoch
    case _ => true
  }

  ghost function Next(g: Gate, e: Event): Gate {
    if !Can(g, e) then g else
    match e
    case RunStarts(id, testPath) => g.(reg := Step(g.reg, Mint(id, testPath)), deliveries := g.deliveries + {id})
    case Message(id) => g.(reg := Step(g.reg, Admit(id, false)))
    case Terminal(id, complete) =>
      g.(reg := Step(g.reg, Admit(id, true)),
         handlers := if Admits(g.reg, id, true) then g.handlers[id := Collecting(complete)] else g.handlers)
    case CleanupStarts(id) => g.(reg := Step(Step(g.reg, Admit(id, false)), ArmCleanup(id)))
    case CleanupEnds(id) => g.(reg := Step(Step(g.reg, Admit(id, false)), DisarmCleanup(id)))
    case CleanupExpires(id) =>
      g.(reg := Step(g.reg, CleanupTimerFires(id)),
         handlers := if IsOpen(g.reg, id) then g.handlers[id := Recovering] else g.handlers)
    case CoverageTaken(id, taken) => g.(handlers := g.handlers[id := Routing(g.handlers[id].complete, taken)])
    case RouterAnswers(id, response) =>
        Finish(g, id, Verdict(g.handlers[id].complete, g.handlers[id].covered, response))
    case Recovered(id, recovered) => Finish(g, id, if recovered then Resolved else Rejected)
    case Delivered(id) => g.(deliveries := g.deliveries - {id})
    case DeliveryFails(id) =>
      g.(reg := Step(g.reg, Reject(id)),
         deliveries := g.deliveries - {id},
         undelivered := if id in g.reg.runs then g.undelivered + {id} else g.undelivered)
    case BootDeadline(id) => g.(reg := Step(g.reg, BootTimerFires(id)))
    case FileSetCommits(paths) => g.(reg := Step(g.reg, RetainPaths(paths)))
    case Disconnects => g.(reg := Step(g.reg, RejectAll))
    case Attaches(epoch) => g.(reg := Step(g.reg, SetTransportEpoch(epoch)))
  }

  // ----- what every event keeps -----

  // Claimed means owned by a handler, now or earlier; a handler's word decides unless a failed delivery came first.
  ghost predicate RunFits(g: Gate, id: RunId) {
    && (g.reg.claims[id] == 1 <==> id in g.handlers || id in g.verdicts)
    && !(id in g.handlers && id in g.verdicts)
    && (id in g.handlers ==> IsClaimed(g.reg, id) || id in g.undelivered)
    && (id in g.verdicts ==>
          && id in g.reg.deferreds && id !in g.reg.runs
          && (id !in g.undelivered ==> g.reg.deferreds[id] == [g.verdicts[id]]))
    && (id in g.undelivered ==> id in g.reg.deferreds && id !in g.reg.runs && g.reg.deferreds[id] == [Rejected])
    && (id in g.deliveries ==> id in g.reg.deferreds)
  }

  ghost predicate GateOk(g: Gate) {
    Sound(g.reg) && Gated(g.reg) && forall id :: RunFits(g, id)
  }

  lemma {:induction false} StepOk(s: State, op: Op)
    requires Sound(s) && Gated(s) && Enabled(s, op) && ArmsAfterAdmit(s, op)
    ensures Sound(Step(s, op)) && Gated(Step(s, op))
  {
    StepKeepsSound(s, op);
    StepKeepsGated(s, op);
  }

  // What a step leaves alone of a run it neither mints, names nor claims.
  ghost predicate Untouched(s: State, t: State, id: RunId) {
    && (id in s.deferreds <==> id in t.deferreds) && t.claims[id] == s.claims[id]
    && (IsClaimed(s, id) ==> IsClaimed(t, id))
    && (id in s.deferreds && id !in s.runs ==> id !in t.runs && t.deferreds[id] == s.deferreds[id])
  }

  ghost predicate Concerns(op: Op, id: RunId) {
    (op.Mint? || op.Resolve? || op.Reject? || (op.Admit? && op.terminal) || op.CleanupTimerFires?) && op.runId == id
  }

  lemma {:induction false} StepLeaves(s: State, op: Op, id: RunId)
    requires Sound(s) && Gated(s) && Enabled(s, op) && !Concerns(op, id)
    ensures Untouched(s, Step(s, op), id)
  {
  }

  lemma {:induction false} UntouchedFits(g: Gate, h: Gate, id: RunId)
    requires RunFits(g, id) && Untouched(g.reg, h.reg, id)
    requires id in g.handlers <==> id in h.handlers
    requires id in g.verdicts <==> id in h.verdicts
    requires id in g.verdicts ==> h.verdicts[id] == g.verdicts[id]
    requires (id in g.undelivered <==> id in h.undelivered) && (id in h.deliveries ==> id in g.deliveries)
    ensures RunFits(h, id)
  {
  }

  // An event whose registry step concerns no run.
  lemma {:induction false} PlainStepFits(g: Gate, op: Op)
    requires GateOk(g) && Enabled(g.reg, op) && ArmsAfterAdmit(g.reg, op)
    requires forall id :: !Concerns(op, id)
    ensures GateOk(g.(reg := Step(g.reg, op)))
  {
    var h := g.(reg := Step(g.reg, op));
    StepOk(g.reg, op);
    forall id ensures RunFits(h, id) {
      StepLeaves(g.reg, op, id);
      UntouchedFits(g, h, id);
    }
  }

  lemma {:induction false} StartFits(g: Gate, id: RunId, testPath: string)
    requires GateOk(g) && id !in g.reg.deferreds
    ensures GateOk(Next(g, RunStarts(id, testPath)))
  {
    var h := Next(g, RunStarts(id, testPath));
    StepOk(g.reg, Mint(id, testPath));
    forall i ensures RunFits(h, i) {
      assert RunFits(g, i);
      if i != id {
        StepLeaves(g.reg, Mint(id, testPath), i);
        UntouchedFits(g, h, i);
      } else {
        assert g.reg.claims[id] == 0;
      }
    }
  }

  lemma {:induction false} ClaimFits(g: Gate, op: Op, id: RunId, handling: Handling)
    requires GateOk(g) && IsOpen(g.reg, id) && Enabled(g.reg, op)
    requires op == Admit(id, true) || op == CleanupTimerFires(id)
    ensures GateOk(g.(reg := Step(g.reg, op), handlers := g.handlers[id := handling]))
  {
    var h := g.(reg := Step(g.reg, op), handlers := g.handlers[id := handling]);
    StepOk(g.reg, op);
    forall i ensures RunFits(h, i) {
      assert RunFits(g, i);
      if i != id {
        StepLeaves(g.reg, op, i);
        UntouchedFits(g, h, i);
      } else {
        assert RunOk(g.reg, id);
      }
    }
  }

  lemma {:induction false} FinishFits(g: Gate, id: RunId, verdict: Outcome)
    requires GateOk(g) && id in g.handlers
    ensures GateOk(Finish(g, id, verdict))
    ensures id !in Finish(g, id, verdict).reg.runs && id in Finish(g, id, verdict).reg.deferreds
    ensures Finish(g, id, verdict).reg.deferreds[id] == [if id in g.undelivered then Rejected else verdict]
  {
    var h := Finish(g, id, verdict);
    var op := if verdict == Resolved then Resolve(id) else Reject(id);
    assert h.reg == Step(g.reg, op);
    StepOk(g.reg, op);
    assert RunFits(g, id);
    if id in g.reg.runs {
      assert RunOk(g.reg, id);
    }
    forall i | i != id ensures RunFits(h, i) {
      StepLeaves(g.reg, op, i);
      UntouchedFits(g, h, i);
    }
  }

  lemma {:induction false} UndeliveredFits(g: Gate, id: RunId)
    requires GateOk(g) && id in g.deliveries
    ensures RunFits(Next(g, DeliveryFails(id)), id)
  {
    assert RunFits(g, id);
    if id in g.reg.runs {
      assert RunOk(g.reg, id);
    }
  }

  lemma {:induction false} OtherDeliveryFits(g: Gate, id: RunId, i: RunId)
    requires GateOk(g) && id in g.deliveries && i != id
    ensures RunFits(Next(g, DeliveryFails(id)), i)
  {
    StepLeaves(g.reg, Reject(id), i);
    UntouchedFits(g, Next(g, DeliveryFails(id)), i);
  }

  lemma {:induction false} DeliveryFits(g: Gate, id: RunId)
    requires GateOk(g) && id in g.deliveries
    ensures GateOk(Next(g, DeliveryFails(id)))
  {
    var h := Next(g, DeliveryFails(id));
    StepOk(g.reg, Reject(id));
    UndeliveredFits(g, id);
    forall i | i != id ensures RunFits(h, i) {
      OtherDeliveryFits(g, id, i);
    }
  }

  // The deadline that starts after a message is armed for a run that was heard.
  lemma {:induction false} CleanupFits(g: Gate, id: RunId, op: Op)
    requires GateOk(g) && (op == ArmCleanup(id) || op == DisarmCleanup(id))
    ensures GateOk(g.(reg := Step(Step(g.reg, Admit(id, false)), op)))
  {
    PlainStepFits(g, Admit(id, false));
    var heard := g.(reg := Step(g.reg, Admit(id, false)));
    PlainStepFits(heard, op);
  }

  // A terminal message that is not the first one is heard like any other.
  lemma {:induction false} TerminalFits(g: Gate, id: RunId, complete: bool)
    requires GateOk(g)
    ensures GateOk(Next(g, Terminal(id, complete)))
  {
    if IsOpen(g.reg, id) {
      ClaimFits(g, Admit(id, true), id, Collecting(complete));
    } else {
      assert Step(g.reg, Admit(id, true)) == Step(g.reg, Admit(id, false));
      PlainStepFits(g, Admit(id, false));
    }
  }

  lemma {:induction false} ExpiryFits(g: Gate, id: RunId)
    requires GateOk(g) && id in g.reg.cleanupTimers
    ensures GateOk(Next(g, CleanupExpires(id)))
  {
    if IsOpen(g.reg, id) {
      ClaimFits(g, CleanupTimerFires(id), id, Recovering);
    } else {
      assert id in g.reg.runs;
      assert Step(g.reg, CleanupTimerFires(id)) == Step(g.reg, DisarmCleanup(id));
      PlainStepFits(g, DisarmCleanup(id));
    }
  }

  /** Every event keeps the gate in order. */
  lemma {:induction false} NextKeepsOk(g: Gate, e: Event)
    requires GateOk(g)
    ensures GateOk(Next(g, e))
  {
    if Can(g, e) {
      match e
      case RunStarts(id, testPath) => StartFits(g, id, testPath);
      case Message(id) => PlainStepFits(g, Admit(id, false));
      case Terminal(id, complete) => TerminalFits(g, id, complete);
      case CleanupStarts(id) => CleanupFits(g, id, ArmCleanup(id));
      case CleanupEnds(id) => CleanupFits(g, id, DisarmCleanup(id));
      case CleanupExpires(id) => ExpiryFits(g, id);
      case CoverageTaken(id, taken) => SameRegistryFits(g, Next(g, e));
      case RouterAnswers(id, response) =>
          FinishFits(g, id, Verdict(g.handlers[id].complete, g.handlers[id].covered, response));
      case Recovered(id, recovered) => FinishFits(g, id, if recovered then Resolved else Rejected);
      case Delivered(id) => SameRegistryFits(g, Next(g, e));
      case DeliveryFails(id) => DeliveryFits(g, id);
      case BootDeadline(id) => PlainStepFits(g, BootTimerFires(id));
      case FileSetCommits(paths) => PlainStepFits(g, RetainPaths(paths));
      case Disconnects => PlainStepFits(g, RejectAll);
      case Attaches(epoch) => PlainStepFits(g, SetTransportEpoch(epoch));
    }
  }

  lemma {:induction false} SameRegistryFits(g: Gate, h: Gate)
    requires GateOk(g) && h == g.(handlers := h.handlers, deliveries := h.deliveries)
    requires h.handlers.Keys == g.handlers.Keys && h.deliveries <= g.deliveries
    ensures GateOk(h)
  {
    forall id ensures RunFits(h, id) {
      assert RunFits(g, id);
    }
  }

  // ----- whole runs -----

  ghost function After(events: seq<Event>): Gate {
    if events == [] then Fresh() else Next(After(events[..|events| - 1]), events[|events| - 1])
  }

  lemma {:induction false} AlwaysOk(events: seq<Event>)
    ensures GateOk(After(events))
  {
    if events != [] {
      AlwaysOk(events[..|events| - 1]);
      NextKeepsOk(After(events[..|events| - 1]), events[|events| - 1]);
    }
  }

  /**
   In every interleaving, when the dispatch of an admitted terminal message returns, its run is settled: resolved
   exactly when the message was a file-complete, its coverage was taken and the response tests free of errors. The one
   exception is a failed delivery that rejected the run before.
   */
  lemma {:induction false} DispatchSettles(events: seq<Event>, id: RunId, response: Response)
    requires Can(After(events), RouterAnswers(id, response))
    ensures var g, h := After(events), After(events + [RouterAnswers(id, response)]);
      && id !in h.reg.runs && id in h.reg.deferreds
      && h.reg.deferreds[id]
          == [if id in g.undelivered then Rejected
          else Verdict(g.handlers[id].complete, g.handlers[id].covered, response)]
  {
    var g := After(events);
    AfterNext(events, RouterAnswers(id, response));
    AlwaysOk(events);
    FinishFits(g, id, Verdict(g.handlers[id].complete, g.handlers[id].covered, response));
  }

  /**
   A run claimed by its cleanup deadline is settled when the recovery ends: resolved exactly when that succeeded, with
   the same exception.
   */
  lemma {:induction false} RecoverySettles(events: seq<Event>, id: RunId, recovered: bool)
    requires Can(After(events), Recovered(id, recovered))
    ensures var g, h := After(events), After(events + [Recovered(id, recovered)]);
      && id !in h.reg.runs && id in h.reg.deferreds
      && h.reg.deferreds[id] == [if recovered && id !in g.undelivered then Resolved else Rejected]
  {
    AfterNext(events, Recovered(id, recovered));
    AlwaysOk(events);
    FinishFits(After(events), id, if recovered then Resolved else Rejected);
  }

  ghost predicate Ended(s: State, id: RunId, calls: seq<Outcome>) {
    id in s.deferreds && id !in s.runs && s.deferreds[id] == calls
  }

  // ----- the gate over the registry -----

  // The registry steps one event makes.
  ghost function OpsOf(g: Gate, e: Event): seq<Op>
    requires Can(g, e)
  {
    match e
    case RunStarts(id, testPath) => [Mint(id, testPath)]
    case Message(id) => [Admit(id, false)]
    case Terminal(id, _) => [Admit(id, true)]
    case CleanupStarts(id) => [Admit(id, false), ArmCleanup(id)]
    case CleanupEnds(id) => [Admit(id, false), DisarmCleanup(id)]
    case CleanupExpires(id) => [CleanupTimerFires(id)]
    case CoverageTaken(_, _) => []
    case RouterAnswers(id, response) => [Word(id, Verdict(g.handlers[id].complete, g.handlers[id].covered, response))]
    case Recovered(id, recovered) => [if recovered then Resolve(id) else Reject(id)]
    case Delivered(_) => []
    case DeliveryFails(id) => [Reject(id)]
    case BootDeadline(id) => [BootTimerFires(id)]
    case FileSetCommits(paths) => [RetainPaths(paths)]
    case Disconnects => [RejectAll]
    case Attaches(epoch) => [SetTransportEpoch(epoch)]
  }

  function Word(id: RunId, verdict: Outcome): Op {
    if verdict == Resolved then Resolve(id) else Reject(id)
  }

  /** Every event of the gate moves the registry by possible steps that keep the arming rule. */
  lemma {:induction false} GateRunsRegistry(g: Gate, e: Event)
    requires Can(g, e)
    ensures var ops := OpsOf(g, e);
      Next(g, e).reg == RunRegistry.After(g.reg, ops) && Possible(g.reg, ops) && Disciplined(g.reg, ops)
  {
    var ops := OpsOf(g, e);
    if e.CleanupStarts? || e.CleanupEnds? {
      TwoOps(g.reg, ops[0], ops[1]);
    } else if ops != [] {
      OneOp(g.reg, ops[0]);
      assert ops == [ops[0]];
    }
  }

  lemma {:induction false} NamesOnlyItsRun(g: Gate, e: Event, id: RunId)
    requires Can(g, e) && e != DeliveryFails(id) && !((e.RouterAnswers? || e.Recovered?) && e.runId == id)
    ensures forall op :: op in OpsOf(g, e) ==> !Names(op, id)
  {
  }

  lemma {:induction false} EndedStep(g: Gate, e: Event, id: RunId, calls: seq<Outcome>)
    requires GateOk(g) && Ended(g.reg, id, calls)
    ensures Ended(Next(g, e).reg, id, calls)
  {
    if Can(g, e) {
      var ops := OpsOf(g, e);
      GateRunsRegistry(g, e);
      SettledStaysSettled(g.reg, ops, id);
      assert !Admits(RunRegistry.After(g.reg, ops), id, false);
    }
  }

  lemma {:induction false} MintedStays(g: Gate, e: Event, id: RunId)
    requires id in g.reg.deferreds
    ensures id in Next(g, e).reg.deferreds
  {
  }

  lemma {:induction false} AfterNext(events: seq<Event>, e: Event)
    ensures After(events + [e]) == Next(After(events), e)
  {
    var more := events + [e];
    assert more[..|more| - 1] == events;
  }

  /** A settled run keeps its outcome through everything that can still happen. */
  lemma {:induction false} OutcomeStays(events: seq<Event>, more: seq<Event>, id: RunId, calls: seq<Outcome>)
    requires Ended(After(events).reg, id, calls)
    ensures Ended(After(events + more).reg, id, calls)
  {
    if more == [] {
      assert events + more == events;
    } else {
      var front, last := more[..|more| - 1], more[|more| - 1];
      OutcomeStays(events, front, id, calls);
      AlwaysOk(events + front);
      EndedStep(After(events + front), last, id, calls);
      AfterNext(events + front, last);
      assert events + more == events + front + [last];
    }
  }

  /** Nothing but its own handler or a failed delivery ends a claimed run. */
  lemma {:induction false} OnlyHandlerOrDelivery(g: Gate, e: Event, id: RunId)
    requires GateOk(g) && IsClaimed(g.reg, id)
    requires e != DeliveryFails(id) && !((e.RouterAnswers? || e.Recovered?) && e.runId == id)
    ensures IsClaimed(Next(g, e).reg, id)
  {
    if Can(g, e) {
      var ops := OpsOf(g, e);
      GateRunsRegistry(g, e);
      NamesOnlyItsRun(g, e, id);
      ClaimedUntilNamed(g.reg, ops, id);
    }
  }

  // ----- from the message to the outcome, over events alone -----

  // A handler owns the run and is at some point of its code.
  ghost predicate IsHandled(g: Gate, id: RunId, handling: Handling) {
    id in g.handlers && g.handlers[id] == handling
  }

  // Nothing of this happens to the handler itself.
  ghost predicate LetsBe(e: Event, id: RunId, handling: Handling) {
    match handling
    case Collecting(_) => !(e.CoverageTaken? && e.runId == id)
    case Routing(_, _) => !(e.RouterAnswers? && e.runId == id)
    case Recovering => !(e.Recovered? && e.runId == id)
  }

  // A delivery to the run fails while it is still under way.
  ghost predicate FailsDelivery(g: Gate, e: Event, id: RunId) {
    e == DeliveryFails(id) && Can(g, e)
  }

  // An owned run is not claimed again.
  lemma {:induction false} HandlerStays(g: Gate, e: Event, id: RunId, handling: Handling)
    requires GateOk(g) && IsHandled(g, id, handling) && LetsBe(e, id, handling)
    ensures IsHandled(Next(g, e), id, handling)
  {
    assert RunFits(g, id);
    assert !IsOpen(g.reg, id);
  }

  // Only a failed delivery of the run's own makes it undelivered.
  lemma {:induction false} UndeliveredIff(g: Gate, e: Event, id: RunId)
    requires GateOk(g) && id in g.handlers
    ensures id in Next(g, e).undelivered <==> id in g.undelivered || FailsDelivery(g, e, id)
  {
    assert RunFits(g, id);
  }

  // Some event of a stretch rejects the run by a failed delivery.
  ghost predicate IsRejectedIn(front: seq<Event>, more: seq<Event>, id: RunId) {
    exists k :: 0 <= k < |more| && FailsDelivery(After(front + more[..k]), more[k], id)
  }

  lemma {:induction false} RejectedInMore(front: seq<Event>, more: seq<Event>, e: Event, id: RunId)
    ensures IsRejectedIn(front, more + [e], id)
        <==> IsRejectedIn(front, more, id) || FailsDelivery(After(front + more), e, id)
  {
    var all := more + [e];
    assert all[..|more|] == more;
    forall k | 0 <= k < |more| ensures all[..k] == more[..k] && all[k] == more[k] {
    }
    if k :| 0 <= k < |more| && FailsDelivery(After(front + more[..k]), more[k], id) {
      assert FailsDelivery(After(front + all[..k]), all[k], id);
    }
    if FailsDelivery(After(front + more), e, id) {
      assert FailsDelivery(After(front + all[..|more|]), all[|more|], id);
    }
  }

  /** A handled run stays with its handler at the same point through anything else. */
  lemma {:induction false} HandledThrough(front: seq<Event>, more: seq<Event>, id: RunId, handling: Handling)
    requires IsHandled(After(front), id, handling) && forall e :: e in more ==> LetsBe(e, id, handling)
    ensures IsHandled(After(front + more), id, handling)
    ensures id in After(front + more).undelivered <==>
      id in After(front).undelivered || IsRejectedIn(front, more, id)
    decreases |more|
  {
    if more == [] {
      assert front + more == front;
    } else {
      var most, e := more[..|more| - 1], more[|more| - 1];
      assert more == most + [e];
      HandledThrough(front, most, id, handling);
      AlwaysOk(front + most);
      HandlerStays(After(front + most), e, id, handling);
      UndeliveredIff(After(front + most), e, id);
      AfterNext(front + most, e);
      assert front + more == front + most + [e];
      RejectedInMore(front, most, e, id);
    }
  }

  // A message claims the run, or its expired deadline does.
  lemma {:induction false} ClaimIsHandled(front: seq<Event>, e: Event, id: RunId, handling: Handling)
    requires IsOpen(After(front).reg, id)
    requires (exists complete :: e == Terminal(id, complete) && handling == Collecting(complete))
      || (e == CleanupExpires(id) && Can(After(front), e) && handling == Recovering)
    ensures IsHandled(After(front + [e]), id, handling) && id !in After(front + [e]).undelivered
  {
    AlwaysOk(front);
    AfterNext(front, e);
    assert RunFits(After(front), id);
  }

  lemma {:induction false} CoverageIsTaken(front: seq<Event>, id: RunId, complete: bool, taken: bool)
    requires IsHandled(After(front), id, Collecting(complete))
    ensures var e := CoverageTaken(id, taken);
      IsHandled(After(front + [e]), id, Routing(complete, taken))
      && (id in After(front + [e]).undelivered <==> id in After(front).undelivered)
  {
    AfterNext(front, CoverageTaken(id, taken));
  }

  // Which events come first: up to the admitted message, and up to its coverage.
  ghost function Claimed(front: seq<Event>, id: RunId, complete: bool): seq<Event> {
    front + [Terminal(id, complete)]
  }

  ghost function Covered(front: seq<Event>, id: RunId, complete: bool, more: seq<Event>, taken: bool): seq<Event> {
    Claimed(front, id, complete) + more + [CoverageTaken(id, taken)]
  }

  lemma {:induction false} RoutedAsSent(front: seq<Event>, id: RunId, complete: bool, more: seq<Event>, taken: bool,
      rest: seq<Event>)
    requires IsOpen(After(front).reg, id)
    requires forall e :: e in more ==> !(e.CoverageTaken? && e.runId == id)
    requires forall e :: e in rest ==> !(e.RouterAnswers? && e.runId == id)
    ensures var claimed, covered := Claimed(front, id, complete), Covered(front, id, complete, more, taken);
      && IsHandled(After(covered + rest), id, Routing(complete, taken))
      && (id in After(covered + rest).undelivered <==>
            IsRejectedIn(claimed, more, id) || IsRejectedIn(covered, rest, id))
  {
    var claimed, covered := Claimed(front, id, complete), Covered(front, id, complete, more, taken);
    ClaimIsHandled(front, Terminal(id, complete), id, Collecting(complete));
    HandledThrough(claimed, more, id, Collecting(complete));
    CoverageIsTaken(claimed + more, id, complete, taken);
    HandledThrough(covered, rest, id, Routing(complete, taken));
  }

  /**
   From the message to the outcome: the first terminal message of a run is admitted, then its coverage is taken or not,
   and then the router answers, with anything else in between. The run is resolved exactly when the message was a
   file-complete, the coverage was taken, the response has no error text, and no failed delivery rejected the run
   before. Otherwise it is rejected.
   */
  lemma {:induction false} TerminalDecides(front: seq<Event>, id: RunId, complete: bool, more: seq<Event>, taken: bool,
      rest: seq<Event>, response: Response)
    requires Admits(After(front).reg, id, true)
    requires forall e :: e in more ==> !(e.CoverageTaken? && e.runId == id)
    requires forall e :: e in rest ==> !(e.RouterAnswers? && e.runId == id)
    ensures var claimed, covered := Claimed(front, id, complete), Covered(front, id, complete, more, taken);
      var undelivered := IsRejectedIn(claimed, more, id) || IsRejectedIn(covered, rest, id);
      Ended(After(covered + rest + [RouterAnswers(id, response)]).reg, id,
        [if complete && taken && !HasError(response) && !undelivered then Resolved else Rejected])
  {
    RoutedAsSent(front, id, complete, more, taken, rest);
    DispatchSettles(Covered(front, id, complete, more, taken) + rest, id, response);
  }

  /** The same for a run its deadline claims: it is resolved exactly when the recovery succeeds, unless undelivered. */
  lemma {:induction false} ExpiryDecides(front: seq<Event>, id: RunId, more: seq<Event>, recovered: bool)
    requires Can(After(front), CleanupExpires(id)) && IsOpen(After(front).reg, id)
    requires forall e :: e in more ==> !(e.Recovered? && e.runId == id)
    ensures var claimed := front + [CleanupExpires(id)];
      Ended(After(claimed + more + [Recovered(id, recovered)]).reg, id,
        [if recovered && !IsRejectedIn(claimed, more, id) then Resolved else Rejected])
  {
    var claimed := front + [CleanupExpires(id)];
    ClaimIsHandled(front, CleanupExpires(id), id, Recovering);
    HandledThrough(claimed, more, id, Recovering);
    RecoverySettles(claimed + more, id, recovered);
  }

  /** A fatal rejects its run, whatever its coverage and its handler come to. */
  lemma {:induction false} FatalRejects(id: RunId, testPath: string, taken: bool, response: Response)
    ensures var events := [RunStarts(id, testPath), Terminal(id, false), CoverageTaken(id, taken),
        RouterAnswers(id, response)];
      Ended(After(events).reg, id, [Rejected])
  {
    var starts := [RunStarts(id, testPath)];
    AfterNext([], RunStarts(id, testPath));
    assert [] + starts == starts && After([]) == Fresh();
    TerminalDecides(starts, id, false, [], taken, [], response);
    assert Covered(starts, id, false, [], taken) + [] + [RouterAnswers(id, response)]
        == [RunStarts(id, testPath), Terminal(id, false), CoverageTaken(id, taken), RouterAnswers(id, response)];
  }

  // ----- what else events do, over events alone -----

  // The run may speak while it is in the table.
  ghost predicate IsFrom(e: Event, id: RunId) {
    (e.Message? || e.Terminal? || e.CleanupStarts? || e.CleanupEnds?) && e.runId == id
  }

  lemma {:induction false} NoCleanupStep(g: Gate, e: Event, id: RunId)
    requires id !in g.reg.cleanupTimers && !(e.CleanupStarts? && e.runId == id)
    ensures id !in Next(g, e).reg.cleanupTimers
  {
  }

  lemma {:induction false} NoBootStep(g: Gate, e: Event, id: RunId)
    requires id in g.reg.deferreds && id !in g.reg.bootTimers
    ensures id !in Next(g, e).reg.bootTimers
  {
  }

  lemma {:induction false} NoDeliveryStep(g: Gate, e: Event, id: RunId)
    requires id in g.reg.deferreds && id !in g.deliveries
    ensures id !in Next(g, e).deliveries
  {
  }

  /** After the cleanup has ended its deadline cannot expire, unless a cleanup starts again. */
  lemma {:induction false} NoExpiryAfterEnd(front: seq<Event>, more: seq<Event>, id: RunId)
    requires forall e :: e in more ==> !(e.CleanupStarts? && e.runId == id)
    ensures !Can(After(front + [CleanupEnds(id)] + more), CleanupExpires(id))
    decreases |more|
  {
    var ended := front + [CleanupEnds(id)];
    if more == [] {
      assert ended + more == ended;
      AlwaysOk(front);
      AfterNext(front, CleanupEnds(id));
    } else {
      var most, e := more[..|more| - 1], more[|more| - 1];
      assert more == most + [e] && ended + more == ended + most + [e];
      NoExpiryAfterEnd(front, most, id);
      AfterNext(ended + most, e);
      NoCleanupStep(After(ended + most), e, id);
    }
  }

  /** An open run whose cleanup starts can be claimed by its deadline. */
  lemma {:induction false} ExpiryAfterStart(front: seq<Event>, id: RunId)
    requires IsOpen(After(front).reg, id)
    ensures Can(After(front + [CleanupStarts(id)]), CleanupExpires(id))
  {
    AfterNext(front, CleanupStarts(id));
  }

  /** Once a run has spoken its boot deadline cannot reject it. */
  lemma {:induction false} NoBootDeadlineAfter(front: seq<Event>, e: Event, more: seq<Event>, id: RunId)
    requires id in After(front).reg.runs && IsFrom(e, id)
    ensures !Can(After(front + [e] + more), BootDeadline(id)) && id in After(front + [e] + more).reg.deferreds
    decreases |more|
  {
    var spoken := front + [e];
    AlwaysOk(front);
    if more == [] {
      assert spoken + more == spoken;
      AfterNext(front, e);
      MintedStays(After(front), e, id);
    } else {
      var most, last := more[..|more| - 1], more[|more| - 1];
      assert more == most + [last] && spoken + more == spoken + most + [last];
      NoBootDeadlineAfter(front, e, most, id);
      AfterNext(spoken + most, last);
      NoBootStep(After(spoken + most), last, id);
      MintedStays(After(spoken + most), last, id);
    }
  }

  /** A delivery ends once. */
  lemma {:induction false} DeliveredOnce(front: seq<Event>, e: Event, more: seq<Event>, id: RunId)
    requires Can(After(front), e) && (e == Delivered(id) || e == DeliveryFails(id))
    ensures var g := After(front + [e] + more);
      !Can(g, Delivered(id)) && !Can(g, DeliveryFails(id)) && id in g.reg.deferreds
    decreases |more|
  {
    var done := front + [e];
    AlwaysOk(front);
    assert RunFits(After(front), id);
    if more == [] {
      assert done + more == done;
      AfterNext(front, e);
      MintedStays(After(front), e, id);
    } else {
      var most, last := more[..|more| - 1], more[|more| - 1];
      assert more == most + [last] && done + more == done + most + [last];
      DeliveredOnce(front, e, most, id);
      AfterNext(done + most, last);
      NoDeliveryStep(After(done + most), last, id);
      MintedStays(After(done + most), last, id);
    }
  }

  /** A commit resolves exactly the open runs outside the set. */
  lemma {:induction false} CommitResolves(g: Gate, paths: set<string>)
    requires GateOk(g)
    ensures Swept(g.reg, Next(g, FileSetCommits(paths)).reg,
        (set i | i in g.reg.runs && IsOpen(g.reg, i) && g.reg.runs[i].testPath !in paths), Resolved)
  {
    CommitSweeps(g.reg, paths);
  }

  /** Losing the transport rejects exactly the open runs. */
  lemma {:induction false} DisconnectRejects(g: Gate)
    requires GateOk(g)
    ensures Swept(g.reg, Next(g, Disconnects).reg, (set i | i in g.reg.runs && IsOpen(g.reg, i)), Rejected)
  {
    DisconnectSweeps(g.reg);
  }

  /** A boot deadline rejects its run. */
  lemma {:induction false} BootDeadlineRejects(g: Gate, id: RunId)
    requires GateOk(g) && Can(g, BootDeadline(id))
    ensures Ended(Next(g, BootDeadline(id)).reg, id, [Rejected])
  {
    BootTimerRejects(g.reg, id);
  }

  /** A new transport rejects every open run. */
  lemma {:induction false} AttachRejects(g: Gate, epoch: int)
    requires GateOk(g) && Can(g, Attaches(epoch))
    ensures forall i :: IsOpen(g.reg, i) ==> Ended(Next(g, Attaches(epoch)).reg, i, [Rejected])
  {
    NewTransportSweeps(g.reg, epoch);
    var t := Next(g, Attaches(epoch)).reg;
    forall i | IsOpen(g.reg, i) ensures Ended(t, i, [Rejected]) {
      assert !IsOpen(t, i) && !IsClaimed(g.reg, i);
      assert !IsClaimed(t, i);
    }
  }

  /**
   What the outcome means in terms of the routed handler: a file-complete resolves exactly when its coverage was taken
   and its handler returned or threw an empty message. No headed response is stale.
   */
  lemma {:induction false} FileCompleteResolvesIff(request: Request, response: Response,
      outcome: Option<HandlerOutcome>, covered: bool)
    requires Answers(response, request, false, outcome)
    ensures Verdict(true, covered, response) == Resolved
       <==> covered && outcome.Some? && (outcome.value.Returns? || outcome.value.message == "")
    ensures Verdict(false, covered, response) == Rejected
  {
  }

  // A run that starts, completes, has its coverage taken and its handler answered.
  ghost function CompletedRun(id: RunId, testPath: string, response: Response): seq<Event> {
    [RunStarts(id, testPath), Terminal(id, true), CoverageTaken(id, true), RouterAnswers(id, response)]
  }

  /** A run whose handler throws: its promise is rejected, except that an empty message resolves it. */
  lemma {:induction false} EmptyFailureResolves(id: RunId, testPath: string, request: Request, response: Response,
      message: string)
    requires Answers(response, request, false, Some(Throws(message)))
    ensures var g := After(CompletedRun(id, testPath, response));
      id in g.reg.deferreds && g.reg.deferreds[id] == [if message == "" then Resolved else Rejected]
  {
    FileCompleteResolvesIff(request, response, Some(Throws(message)), true);
    RunUpToRouting(id, testPath);
    var events := [RunStarts(id, testPath), Terminal(id, true), CoverageTaken(id, true)];
    assert CompletedRun(id, testPath, response) == events + [RouterAnswers(id, response)];
    DispatchSettles(events, id, response);
  }

  lemma {:induction false} RunUpToRouting(id: RunId, testPath: string)
    ensures var g := After([RunStarts(id, testPath), Terminal(id, true), CoverageTaken(id, true)]);
      id in g.handlers && g.handlers[id] == Routing(true, true) && g.undelivered == {}
  {
    var starts, ends, taken := RunStarts(id, testPath), Terminal(id, true), CoverageTaken(id, true);
    AfterNext([], starts);
    AfterNext([starts], ends);
    AfterNext([starts, ends], taken);
    assert [] + [starts] == [starts] && [starts] + [ends] == [starts, ends]
        && [starts, ends] + [taken] == [starts, ends, taken];
    var g := After([starts]);
    assert IsOpen(g.reg, id) && g.handlers == map[] && g.undelivered == {};
    var h := After([starts, ends]);
    assert h.handlers == map[id := Collecting(true)] && h.undelivered == {};
  }

  // ----- the handlers' code, from one await to the next -----

  class InboundGate {
    const runs: HeadedRunRegistry
    const router: HostDispatchRouter
    var handlers: map<RunId, Handling>
    ghost var verdicts: map<RunId, Outcome>
    ghost var deliveries: set<RunId>
    ghost var undelivered: set<RunId>

    ghost function Value(): Gate
      reads this, runs
    {
      Gate(runs.Value(), handlers, verdicts, deliveries, undelivered)
    }

    // The headed router is built without a test for run tokens.
    constructor (runs: HeadedRunRegistry)
      requires runs.Valid() && runs.Value() == Initial()
      ensures this.runs == runs && Value() == Fresh()
      ensures fresh(router) && router.isRunTokenStale == None
    {
      this.runs := runs;
      router := new HostDispatchRouter(None);
      handlers, verdicts, deliveries, undelivered := map[], map[], {}, {};
    }

    /** A message at the gate, up to the dispatch's first await. */
    method MessageArrives(runId: RunId, terminal: bool, complete: bool) returns (stale: bool)
      requires runs.Valid()
      modifies this, runs
      ensures runs.Valid() && stale == !Admits(old(runs.Value()), runId, terminal)
      ensures Value() == Next(old(Value()), if terminal then Terminal(runId, complete) else Message(runId))
      ensures handlers == if terminal && !stale then old(handlers)[runId := Collecting(complete)] else old(handlers)
    {
      var admitted := runs.Admit(runId, terminal);
      if admitted && terminal {
        handlers := handlers[runId := Collecting(complete)];
      }
      stale := !admitted;
    }

    method CoverageEnds(runId: RunId, taken: bool)
      requires Can(Value(), CoverageTaken(runId, taken))
      modifies this
      ensures Value() == Next(old(Value()), CoverageTaken(runId, taken))
      ensures handlers == old(handlers)[runId := Routing(old(handlers)[runId].complete, taken)]
    {
      handlers := handlers[runId := Routing(handlers[runId].complete, taken)];
    }

    /**
     Routing a file-complete and settling its run: it ends resolved exactly when coverage was taken and the handler
     returned or threw an empty message, unless a failed delivery rejected it before.
     */
    method RouteComplete(runId: RunId, request: Request) returns (response: Response)
      requires runs.Valid() && GateOk(Value()) && router.isRunTokenStale == None
      requires runId in handlers && handlers[runId].Routing? && handlers[runId].complete
      modifies this, runs
      ensures runs.Valid() && GateOk(Value()) && !response.stale
      ensures Value() == Next(old(Value()), RouterAnswers(runId, response))
      ensures runId in runs.deferreds
      ensures var outcome := old(router.OutcomeOf(request));
        var resolves := old(handlers[runId]).covered && outcome.Some?
            && (outcome.value.Returns? || outcome.value.message == "");
        runs.deferreds[runId] == [if resolves && runId !in old(undelivered) then Resolved else Rejected]
    {
      ghost var g := Value();
      response := router.Dispatch(request);
      FileCompleteResolvesIff(request, response, router.OutcomeOf(request), handlers[runId].covered);
      FinishFits(g, runId, Verdict(true, handlers[runId].covered, response));
      RouterReturns(runId, response);
    }

    /** The rest of a terminal message's dispatch. */
    method RouterReturns(runId: RunId, response: Response)
      requires runs.Valid() && Can(Value(), RouterAnswers(runId, response))
      modifies this, runs
      ensures runs.Valid() && Value() == Next(old(Value()), RouterAnswers(runId, response))
    {
      var handling := handlers[runId];
      if handling.complete {
        var failed := if !handling.covered then true else HasError(response);
        if failed {
          runs.Reject(runId);
        } else {
          runs.Resolve(runId);
        }
      } else {
        runs.Reject(runId);
      }
      handlers := handlers - {runId};
      verdicts := verdicts[runId := Verdict(handling.complete, handling.covered, response)];
    }

    /** The cleanup deadline's callback, up to the recovery. */
    method CleanupDeadlineExpires(runId: RunId)
      requires runs.Valid() && Can(Value(), CleanupExpires(runId))
      modifies this, runs
      ensures runs.Valid() && Value() == Next(old(Value()), CleanupExpires(runId))
    {
      var claimed := runs.CleanupDeadlineExpires(runId);
      if claimed {
        handlers := handlers[runId := Recovering];
      }
    }

    method RecoveryEnds(runId: RunId, recovered: bool)
      requires runs.Valid() && Can(Value(), Recovered(runId, recovered))
      modifies this, runs
      ensures runs.Valid() && Value() == Next(old(Value()), Recovered(runId, recovered))
    {
      if recovered {
        runs.Resolve(runId);
      } else {
        runs.Reject(runId);
      }
      handlers := handlers - {runId};
      verdicts := verdicts[runId := if recovered then Resolved else Rejected];
    }
  }
}
