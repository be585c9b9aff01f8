/** The serial task queue: each task is chained on the previous one's tail, and a tail forgets a rejection. */
module SerialTaskQueue {
  datatype Progress = Waiting | Running | Fulfilled | Rejected

  // A task with the tail it was chained on (0 is the resolved promise the queue starts from) and whether its own tail
  // is fulfilled.
  datatype Task = Task(chainedOn: nat, progress: Progress, tailFulfilled: bool)

  // `queue` is the tail the next task will be chained on; `started` records the order of starts.
  datatype Chain = Chain(tasks: seq<Task>, queue: nat, started: seq<nat>)

  datatype Event = Enqueue | Start(task: nat) | Settle(task: nat, fulfilled: bool) | SettleTail(task: nat)

  function Empty(): Chain {
    Chain([], 0, [])
  }

  predicate Finished(t: Task) {
    t.progress == Fulfilled || t.progress == Rejected
  }

  predicate TailFulfilled(c: Chain, tail: nat) {
    tail == 0 || (tail <= |c.tasks| && c.tasks[tail - 1].tailFulfilled)
  }

  predicate Enabled(c: Chain, e: Event) {
    match e
    case Enqueue => true
    case Start(k) => k < |c.tasks| && c.tasks[k].progress == Waiting && TailFulfilled(c, c.tasks[k].chainedOn)
    case Settle(k, _) => k < |c.tasks| && c.tasks[k].progress == Running
    case SettleTail(k) => k < |c.tasks| && Finished(c.tasks[k]) && !c.tasks[k].tailFulfilled
  }

  function Next(c: Chain, e: Event): Chain {
    if !Enabled(c, e) then c else
    match e
    case Enqueue => Chain(c.tasks + [Task(c.queue, Waiting, false)], |c.tasks| + 1, c.started)
    case Start(k) => c.(tasks := c.tasks[k := c.tasks[k].(progress := Running)], started := c.started + [k])
    case Settle(k, fulfilled) =>
        c.(tasks := c.tasks[k := c.tasks[k].(progress := if fulfilled then Fulfilled else Rejected)])
    case SettleTail(k) => c.(tasks := c.tasks[k := c.tasks[k].(tailFulfilled := true)])
  }

  /** Tasks have started in the order they came; whatever started before the last one has finished, rejected or not. */
  ghost predicate Serial(c: Chain) {
    && c.queue == |c.tasks|
    && |c.started| <= |c.tasks|
    && (forall k :: 0 <= k < |c.started| ==> c.started[k] == k)
    && (forall k :: 0 <= k < |c.tasks| ==>
        c.tasks[k].chainedOn == k && (c.tasks[k].progress == Waiting <==> |c.started| <= k))
    && (forall k :: 0 <= k < |c.tasks| && c.tasks[k].tailFulfilled ==> Finished(c.tasks[k]))
    && (forall k :: 0 <= k < |c.started| - 1 ==> c.tasks[k].tailFulfilled)
  }

  lemma {:induction false} NextKeepsSerial(c: Chain, e: Event)
    requires Serial(c)
    ensures Serial(Next(c, e))
    ensures e.Start? && Enabled(c, e) ==> e.task == |c.started| && forall k :: 0 <= k < e.task ==> Finished(c.tasks[k])
  {
  }

  ghost function After(events: seq<Event>): Chain {
    if events == [] then Empty() else Next(After(events[..|events| - 1]), events[|events| - 1])
  }

  /** Over every run: starts follow enqueue order, and at most one task is running. */
  lemma {:induction false} AlwaysSerial(events: seq<Event>)
    ensures var c := After(events);
      && Serial(c)
      && (forall k :: 0 <= k < |c.started| ==> c.started[k] == k)
      && (forall j, k ::
            && 0 <= j < |c.tasks| && c.tasks[j].progress == Running
            && 0 <= k < |c.tasks| && c.tasks[k].progress == Running
            ==> j == k)
  {
    if events != [] {
      AlwaysSerial(events[..|events| - 1]);
      NextKeepsSerial(After(events[..|events| - 1]), events[|events| - 1]);
    }
  }

  /**
   A waiting task is never blocked by a rejection: unless a task is running, its start or the tail before it is due.
   */
  lemma {:induction false} NeverBlocked(c: Chain, k: nat)
    requires Serial(c) && k < |c.tasks| && c.tasks[k].progress == Waiting
    requires forall j :: 0 <= j < |c.tasks| ==> c.tasks[j].progress != Running
    ensures Enabled(c, Start(|c.started|)) || (|c.started| > 0 && Enabled(c, SettleTail(|c.started| - 1)))
  {
    var n := |c.started|;
    assert c.tasks[n].progress == Waiting;
    if n > 0 {
      assert c.tasks[n - 1].progress != Waiting;
    }
  }

  /** A finished task stays as it finished. */
  lemma {:induction false} FinishedStays(c: Chain, e: Event, k: nat)
    requires k < |c.tasks| && Finished(c.tasks[k])
    ensures k < |Next(c, e).tasks| && Next(c, e).tasks[k].progress == c.tasks[k].progress
  {
  }

  class HeadedSerialTaskQueue {
    var tasks: seq<Task>
    var queue: nat
    ghost var started: seq<nat>

    ghost function Value(): Chain
      reads this
    {
      Chain(tasks, queue, started)
    }

    constructor ()
      ensures Value() == Empty() && Serial(Value())
    {
      tasks, queue, started := [], 0, [];
    }

    method Enqueue() returns (next: nat)
      requires Serial(Value())
      modifies this
      ensures Value() == Next(old(Value()), Event.Enqueue) && Serial(Value())
      ensures next == |old(tasks)| && tasks[next] == Task(next, Waiting, false)
    {
      NextKeepsSerial(Value(), Event.Enqueue);
      next := |tasks|;
      tasks := tasks + [Task(queue, Waiting, false)];
      queue := |tasks|;
    }
  }
}
