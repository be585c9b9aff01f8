/** The headless pool: workers taking batches from one shared queue, with bail, cancellation and crashes. */
module WorkerPool {
  import opened Protocol
  import opened Wrappers

  // What became of files taken off the queue.
  datatype Taken = Batch(files: seq<TestFile>) | Skip(file: TestFile)

  // Between two turns of the loop, running a batch, reporting a skipped file, returned, or thrown out.
  datatype Worker = Idle | Running | Draining | Finished | Crashed

  datatype Config = Config(bail: int, concurrency: int, isolated: string -> bool)

  /** One run of the pool; `log` records, in order, all that was taken off the queue. */
  datatype Pool = Pool(queue: seq<TestFile>, workers: seq<Worker>, log: seq<Taken>, batchSize: nat, token: int,
      currentToken: int, cancelled: bool)

  datatype Event =
    | Turn(worker: nat, failedTests: nat)
    | BatchEnds(worker: nat, crashed: bool)
    | SkipReported(worker: nat, crashed: bool)
    | Cancel
    | TokenMoves  // a new session, or an invalidation

  // ----- sizes -----

  function Lanes(concurrency: int): nat {
    if concurrency < 1 then 1 else concurrency
  }

  function CeilDiv(n: nat, d: nat): nat
    requires d > 0
  {
    (n + d - 1) / d
  }

  function BatchSize(config: Config, n: nat): nat {
    var size := if config.bail != 0 then 1 else CeilDiv(n, Lanes(config.concurrency));
    if size < 1 then 1 else size
  }

  function WorkerCount(config: Config, n: nat): nat {
    if n < Lanes(config.concurrency) then n else Lanes(config.concurrency)
  }

  lemma {:induction false} CeilDivCovers(n: nat, d: nat)
    requires d > 0
    ensures d * CeilDiv(n, d) >= n
  {
    var q, r := (n + d - 1) / d, (n + d - 1) % d;
    assert n + d - 1 == d * q + r;
  }

  // ----- one step -----

  function Fresh(config: Config, files: seq<TestFile>, token: int): Pool {
    Pool(files, seq(WorkerCount(config, |files|), _ => Idle), [], BatchSize(config, |files|), token, token, false)
  }

  predicate Stopped(p: Pool) {
    p.cancelled || p.token != p.currentToken
  }

  predicate Bails(config: Config, failedTests: nat) {
    config.bail != 0 && failedTests >= config.bail
  }

  // How many files from the front share a project, up to a limit.
  function SameProject(queue: seq<TestFile>, project: string, limit: nat): nat {
    if limit == 0 || queue == [] || queue[0].projectName != project then 0
        else 1 + SameProject(queue[1..], project, limit - 1)
  }

  function BatchLength(config: Config, queue: seq<TestFile>, size: nat): nat
    requires queue != [] && size >= 1
  {
    if config.isolated(queue[0].projectName) then 1 else SameProject(queue, queue[0].projectName, size)
  }

  lemma {:induction false} SameProjectIsMaximal(queue: seq<TestFile>, project: string, limit: nat)
    ensures var k := SameProject(queue, project, limit);
      && k <= limit && k <= |queue|
      && (forall i :: 0 <= i < k ==> queue[i].projectName == project)
      && (k == limit || k == |queue| || queue[k].projectName != project)
  {
    if limit > 0 && queue != [] && queue[0].projectName == project {
      SameProjectIsMaximal(queue[1..], project, limit - 1);
      forall i | 1 <= i < SameProject(queue, project, limit) ensures queue[i].projectName == project {
        assert queue[i] == queue[1..][i - 1];
      }
    }
  }

  lemma {:induction false} BatchLengthFits(config: Config, queue: seq<TestFile>, size: nat)
    requires queue != [] && size >= 1
    ensures 1 <= BatchLength(config, queue, size) <= |queue|
    ensures BatchLength(config, queue, size) <= size
    ensures forall i :: 0 <= i < BatchLength(config, queue, size) ==> queue[i].projectName == queue[0].projectName
  {
    SameProjectIsMaximal(queue, queue[0].projectName, size);
  }

  predicate Can(p: Pool, e: Event) {
    match e
    case Turn(w, _) => w < |p.workers| && p.workers[w] == Idle
    case BatchEnds(w, _) => w < |p.workers| && p.workers[w] == Running
    case SkipReported(w, _) => w < |p.workers| && p.workers[w] == Draining
    case _ => true
  }

  function SkipFirst(p: Pool, w: nat): Pool
    requires w < |p.workers| && p.queue != []
  {
    p.(queue := p.queue[1..], log := p.log + [Skip(p.queue[0])], workers := p.workers[w := Draining])
  }

  function TakeBatch(config: Config, p: Pool, w: nat): Pool
    requires w < |p.workers| && p.queue != [] && p.batchSize >= 1
  {
    BatchLengthFits(config, p.queue, p.batchSize);
    var k := BatchLength(config, p.queue, p.batchSize);
    p.(queue := p.queue[k..], log := p.log + [Batch(p.queue[..k])], workers := p.workers[w := Running])
  }

  function Next(config: Config, p: Pool, e: Event): Pool
    requires p.batchSize >= 1
  {
    if !Can(p, e) then p else
    match e
    case Turn(w, failedTests) =>
      if p.queue == [] || Stopped(p) then p.(workers := p.workers[w := Finished])
      else if Bails(config, failedTests) then SkipFirst(p, w)
      else TakeBatch(config, p, w)
    case BatchEnds(w, crashed) => p.(workers := p.workers[w := if crashed then Crashed else Idle])
    case SkipReported(w, crashed) =>
      if crashed then p.(workers := p.workers[w := Crashed])
      else if p.queue == [] then p.(workers := p.workers[w := Finished])
      else SkipFirst(p, w)
    case Cancel => p.(cancelled := true)
    case TokenMoves => p.(currentToken := p.currentToken + 1)
  }

  // ----- what every step keeps -----

  function FilesOf(log: seq<Taken>): seq<TestFile> {
    if log == [] then [] else
      var last := log[|log| - 1];
      FilesOf(log[..|log| - 1]) + if last.Batch? then last.files else [last.file]
  }

  ghost predicate BatchOk(config: Config, t: Taken, batchSize: nat) {
    match t
    case Skip(_) => config.bail != 0
    case Batch(files) =>
      && 0 < |files| <= batchSize
      && (forall i :: 0 <= i < |files| ==> files[i].projectName == files[0].projectName)
      && (config.isolated(files[0].projectName) ==> |files| == 1)
  }

  ghost predicate PoolOk(config: Config, files: seq<TestFile>, p: Pool) {
    && FilesOf(p.log) + p.queue == files
    && p.batchSize == BatchSize(config, |files|)
    && |p.workers| == WorkerCount(config, |files|)
    && (forall i :: 0 <= i < |p.log| ==> BatchOk(config, p.log[i], p.batchSize))
    && p.token <= p.currentToken
    && (p.queue != [] && !Stopped(p) ==> Finished !in p.workers)
  }

  lemma {:induction false} FilesOfMore(log: seq<Taken>, t: Taken)
    ensures FilesOf(log + [t]) == FilesOf(log) + if t.Batch? then t.files else [t.file]
  {
    assert (log + [t])[..|log|] == log;
  }

  lemma {:induction false} SkipKeepsOk(config: Config, files: seq<TestFile>, p: Pool, w: nat)
    requires PoolOk(config, files, p) && w < |p.workers| && p.queue != [] && config.bail != 0
    ensures PoolOk(config, files, SkipFirst(p, w))
  {
    FilesOfMore(p.log, Skip(p.queue[0]));
    assert p.queue == [p.queue[0]] + p.queue[1..];
  }

  lemma {:induction false} TakeKeepsOk(config: Config, files: seq<TestFile>, p: Pool, w: nat)
    requires PoolOk(config, files, p) && w < |p.workers| && p.queue != []
    ensures PoolOk(config, files, TakeBatch(config, p, w))
  {
    var k := BatchLength(config, p.queue, p.batchSize);
    BatchLengthFits(config, p.queue, p.batchSize);
    FilesOfMore(p.log, Batch(p.queue[..k]));
    assert p.queue == p.queue[..k] + p.queue[k..];
    assert BatchOk(config, Batch(p.queue[..k]), p.batchSize);
  }

  // A draining worker got there by a bail.
  ghost predicate DrainsByBail(config: Config, p: Pool) {
    Draining in p.workers ==> config.bail != 0
  }

  /** Every step of any worker keeps the pool in order, and a stopped pool stopped. */
  lemma {:induction false} NextKeepsOk(config: Config, files: seq<TestFile>, p: Pool, e: Event)
    requires PoolOk(config, files, p) && DrainsByBail(config, p)
    ensures PoolOk(config, files, Next(config, p, e)) && DrainsByBail(config, Next(config, p, e))
    ensures Stopped(p) ==> Stopped(Next(config, p, e))
  {
    if Can(p, e) {
      match e
      case Turn(w, failedTests) =>
        if p.queue != [] && !Stopped(p) {
          if Bails(config, failedTests) {
            SkipKeepsOk(config, files, p, w);
          } else {
            TakeKeepsOk(config, files, p, w);
          }
        }
      case SkipReported(w, crashed) =>
        if !crashed && p.queue != [] {
          SkipKeepsOk(config, files, p, w);
        }
      case _ =>
    }
  }

  // ----- whole runs -----

  ghost function After(config: Config, files: seq<TestFile>, token: int, events: seq<Event>): (p: Pool)
    ensures p.batchSize == BatchSize(config, |files|)
  {
    if events == [] then Fresh(config, files, token)
    else Next(config, After(config, files, token, events[..|events| - 1]), events[|events| - 1])
  }

  lemma {:induction false} AlwaysOk(config: Config, files: seq<TestFile>, token: int, events: seq<Event>)
    ensures PoolOk(config, files, After(config, files, token, events))
    ensures DrainsByBail(config, After(config, files, token, events))
  {
    if events != [] {
      var front := events[..|events| - 1];
      AlwaysOk(config, files, token, front);
      NextKeepsOk(config, files, After(config, files, token, front), events[|events| - 1]);
    }
  }

  ghost predicate Over(p: Pool) {
    forall w :: 0 <= w < |p.workers| ==> p.workers[w] == Finished || p.workers[w] == Crashed
  }

  /**
   Whatever the interleaving, the files taken, in the order taken, and the files left are the files given, so each is in
   one batch, one skip or the rest. Batches are single-project, and of one file for isolated projects; skips need a bail
   limit. Files are left at the end only after a cancel, a stale token, or a crash of every worker.
   */
  lemma {:induction false} EachFileLandsOnce(config: Config, files: seq<TestFile>, token: int, events: seq<Event>)
    ensures var p := After(config, files, token, events);
      && FilesOf(p.log) + p.queue == files
      && (forall i :: 0 <= i < |p.log| ==> BatchOk(config, p.log[i], BatchSize(config, |files|)))
      && (Over(p) && p.queue != [] && !Stopped(p) ==> |p.workers| > 0 && forall w :: 0 <= w < |p.workers| ==>
          p.workers[w] == Crashed)
  {
    AlwaysOk(config, files, token, events);
    var p := After(config, files, token, events);
    if Over(p) && p.queue != [] && !Stopped(p) {
      assert |files| > 0;
    }
  }

  // ----- bail -----

  // Failed tests only ever add up.
  ghost predicate CountsRise(events: seq<Event>) {
    forall i, j :: 0 <= i < j < |events| && events[i].Turn? && events[j].Turn? ==>
        events[i].failedTests <= events[j].failedTests
  }

  ghost predicate Bailed(config: Config, events: seq<Event>) {
    exists i :: 0 <= i < |events| && events[i].Turn? && Bails(config, events[i].failedTests)
  }

  ghost predicate SkipsLast(p: Pool) {
    forall i, j :: 0 <= i < j < |p.log| && p.log[i].Skip? ==> p.log[j].Skip?
  }

  ghost predicate BailOk(config: Config, p: Pool, events: seq<Event>) {
    && SkipsLast(p)
    && ((Draining in p.workers || exists i :: 0 <= i < |p.log| && p.log[i].Skip?) ==> Bailed(config, events))
  }

  /** A skip needs a bail, and nothing but skips comes after the first one. */
  lemma {:induction false} SkipsComeLast(config: Config, files: seq<TestFile>, token: int, events: seq<Event>)
    requires CountsRise(events)
    ensures BailOk(config, After(config, files, token, events), events)
    ensures SkipsLast(After(config, files, token, events))
  {
    if events != [] {
      var front, e := events[..|events| - 1], events[|events| - 1];
      assert events == front + [e];
      assert CountsRise(front) by {
        assert forall i :: 0 <= i < |front| ==> front[i] == events[i];
      }
      SkipsComeLast(config, files, token, front);
      BailKept(config, After(config, files, token, front), front, e);
    }
  }

  lemma {:induction false} BailKept(config: Config, p: Pool, front: seq<Event>, e: Event)
    requires p.batchSize >= 1 && CountsRise(front + [e]) && BailOk(config, p, front)
    ensures BailOk(config, Next(config, p, e), front + [e])
  {
    var events := front + [e];
    assert events[|front|] == e;
    if i :| 0 <= i < |front| && front[i].Turn? && Bails(config, front[i].failedTests) {
      assert events[i] == front[i];
      assert Bailed(config, events);
      if e.Turn? {
        assert events[i].failedTests <= events[|front|].failedTests;
      }
    }
  }

  // After a bail one event takes nothing, or skips one file.
  lemma {:induction false} BailedStep(config: Config, p: Pool, front: seq<Event>, e: Event)
    requires p.batchSize >= 1 && CountsRise(front + [e]) && Bailed(config, front)
    ensures var log := Next(config, p, e).log; log == p.log || (p.queue != [] && log == p.log + [Skip(p.queue[0])])
  {
    var events := front + [e];
    var i :| 0 <= i < |front| && front[i].Turn? && Bails(config, front[i].failedTests);
    assert events[i] == front[i] && events[|front|] == e;
    assert e.Turn? ==> events[i].failedTests <= events[|front|].failedTests;
  }

  ghost predicate OnlySkips(log: seq<Taken>) {
    forall i :: 0 <= i < |log| ==> log[i].Skip?
  }

  /**
   Once a worker has seen the failed tests reach the limit, no event of the rest of the run starts a batch: it only
   skips.
   */
  lemma {:induction false} NothingStartsAfterBail(config: Config, files: seq<TestFile>, token: int, front: seq<Event>,
      rest: seq<Event>)
    returns (skips: seq<Taken>)
    requires CountsRise(front + rest) && Bailed(config, front)
    ensures After(config, files, token, front + rest).log == After(config, files, token, front).log + skips
    ensures OnlySkips(skips)
  {
    if rest == [] {
      assert front + rest == front;
      skips := [];
    } else {
      var more, e := rest[..|rest| - 1], rest[|rest| - 1];
      assert front + rest == (front + more) + [e];
      assert CountsRise(front + more) by {
        assert forall i :: 0 <= i < |front + more| ==> (front + more)[i] == (front + rest)[i];
      }
      skips := NothingStartsAfterBail(config, files, token, front, more);
      assert Bailed(config, front + more) by {
        var i :| 0 <= i < |front| && front[i].Turn? && Bails(config, front[i].failedTests);
        assert (front + more)[i] == front[i];
      }
      var p := After(config, files, token, front + more);
      BailedStep(config, p, front + more, e);
      assert (front + rest)[..|front + rest| - 1] == front + more;
      if Next(config, p, e).log != p.log {
        skips := skips + [Skip(p.queue[0])];
      }
    }
  }

  // ----- cancellation -----

  // A stopped pool stays so, takes nothing but what a drain under way skips, and starts no drain.
  lemma {:induction false} StoppedStep(config: Config, p: Pool, e: Event)
    requires p.batchSize >= 1 && Stopped(p) && p.token <= p.currentToken
    ensures var q := Next(config, p, e);
      && Stopped(q) && q.token <= q.currentToken && q.token == p.token
      && (q.log == p.log || (Draining in p.workers && p.queue != [] && q.log == p.log + [Skip(p.queue[0])]))
      && (Draining in q.workers ==> Draining in p.workers)
  {
  }

  lemma {:induction false} StopsIff(config: Config, p: Pool, e: Event)
    requires p.batchSize >= 1 && p.token <= p.currentToken
    ensures var q := Next(config, p, e);
      q.token == p.token && q.token <= q.currentToken && (Stopped(q) <==> Stopped(p) || e == Cancel || e == TokenMoves)
  {
  }

  /** A pool is stopped exactly by a cancel or by its token going stale. */
  lemma {:induction false} StoppedIff(config: Config, files: seq<TestFile>, token: int, events: seq<Event>)
    ensures Stopped(After(config, files, token, events)) <==> Cancel in events || TokenMoves in events
    ensures After(config, files, token, events).token == token <= After(config, files, token, events).currentToken
  {
    if events != [] {
      var front, e := events[..|events| - 1], events[|events| - 1];
      assert events == front + [e];
      StoppedIff(config, files, token, front);
      StopsIff(config, After(config, files, token, front), e);
    }
  }

  /**
   Once the pool is cancelled or its token is stale no event of the rest of the run starts a batch: a worker that was
   draining may go on skipping, and without one nothing more is taken.
   */
  lemma {:induction false} NothingStartsAfterStop(config: Config, files: seq<TestFile>, token: int, front: seq<Event>,
      rest: seq<Event>) returns (skips: seq<Taken>)
    requires Cancel in front || TokenMoves in front
    ensures var p, q := After(config, files, token, front), After(config, files, token, front + rest);
      && q.log == p.log + skips && OnlySkips(skips)
      && (Draining !in p.workers ==> skips == [] && q.queue == p.queue && Draining !in q.workers)
  {
    AlwaysOk(config, files, token, front);
    StoppedIff(config, files, token, front);
    skips := SkipsAfterStop(config, files, token, front, rest);
    AlwaysOk(config, files, token, front + rest);
    var p, q := After(config, files, token, front), After(config, files, token, front + rest);
    if Draining !in p.workers {
      assert q.log == p.log;
      assert FilesOf(p.log) + p.queue == FilesOf(p.log) + q.queue;
      assert q.queue == (FilesOf(p.log) + q.queue)[|FilesOf(p.log)|..];
    }
  }

  lemma {:induction false} SkipsAfterStop(config: Config, files: seq<TestFile>, token: int, front: seq<Event>,
      rest: seq<Event>) returns (skips: seq<Taken>)
    requires var p := After(config, files, token, front); Stopped(p) && p.token <= p.currentToken
    ensures var p, q := After(config, files, token, front), After(config, files, token, front + rest);
      && Stopped(q) && q.token <= q.currentToken && q.log == p.log + skips && OnlySkips(skips)
      && (Draining !in p.workers ==> skips == [] && Draining !in q.workers)
  {
    skips := [];
    if rest == [] {
      assert front + rest == front;
    } else {
      var most, e := rest[..|rest| - 1], rest[|rest| - 1];
      assert front + rest == (front + most) + [e] && (front + rest)[..|front + rest| - 1] == front + most;
      skips := SkipsAfterStop(config, files, token, front, most);
      var p := After(config, files, token, front + most);
      StoppedStep(config, p, e);
      if Next(config, p, e).log != p.log {
        skips := skips + [Skip(p.queue[0])];
      }
    }
  }

  // ----- workers -----

  ghost predicate IsOver(p: Pool, w: nat) {
    w < |p.workers| && (p.workers[w] == Finished || p.workers[w] == Crashed)
  }

  lemma {:induction false} OverStep(config: Config, p: Pool, e: Event, w: nat)
    requires p.batchSize >= 1 && IsOver(p, w)
    ensures IsOver(Next(config, p, e), w)
  {
  }

  /** A worker that has finished or crashed never takes a turn again. */
  lemma {:induction false} OverStays(config: Config, files: seq<TestFile>, token: int, front: seq<Event>,
      rest: seq<Event>, w: nat, failedTests: nat)
    requires IsOver(After(config, files, token, front), w)
    ensures IsOver(After(config, files, token, front + rest), w)
    ensures !Can(After(config, files, token, front + rest), Turn(w, failedTests))
  {
    if rest == [] {
      assert front + rest == front;
    } else {
      var most, e := rest[..|rest| - 1], rest[|rest| - 1];
      assert front + rest == (front + most) + [e] && (front + rest)[..|front + rest| - 1] == front + most;
      OverStays(config, files, token, front, most, w, failedTests);
      OverStep(config, After(config, files, token, front + most), e, w);
    }
  }

  /** A crash ends its worker; a batch that ends well leaves it to its next turn. */
  lemma {:induction false} BatchEndsWorker(config: Config, p: Pool, w: nat, crashed: bool)
    requires p.batchSize >= 1 && Can(p, BatchEnds(w, crashed))
    ensures var q := Next(config, p, BatchEnds(w, crashed));
      && (crashed <==> IsOver(q, w)) && (!crashed ==> forall failed: nat :: Can(q, Turn(w, failed)))
      && q.log == p.log && q.queue == p.queue
  {
  }

  /** With a bail limit files go one by one; without, the batches are the smallest that give every lane at most one. */
  lemma {:induction false} BatchSizeIs(config: Config, n: nat)
    ensures config.bail != 0 ==> BatchSize(config, n) == 1
    ensures config.bail == 0 ==> n <= Lanes(config.concurrency) * BatchSize(config, n)
    ensures config.bail == 0 && BatchSize(config, n) > 1 ==> Lanes(config.concurrency) * (BatchSize(config, n) - 1) < n
    ensures Lanes(config.concurrency) == if config.concurrency < 1 then 1 else config.concurrency
  {
    var lanes := Lanes(config.concurrency);
    CeilDivCovers(n, lanes);
    CeilDivLeast(n, lanes);
    if config.bail == 0 && CeilDiv(n, lanes) < 1 {
      assert lanes * 1 == lanes;
    }
  }

  lemma {:induction false} CeilDivLeast(n: nat, d: nat)
    requires d > 0
    ensures d * (CeilDiv(n, d) - 1) < n || CeilDiv(n, d) == 0
  {
    var q, r := (n + d - 1) / d, (n + d - 1) % d;
    assert n + d - 1 == d * q + r;
    assert d * (q - 1) == d * q - d;
  }

  /** There are as many workers as files, but no more than the concurrency, and at least one lane. */
  lemma {:induction false} WorkersAre(config: Config, files: seq<TestFile>, token: int, events: seq<Event>)
    ensures var n := |After(config, files, token, events).workers|;
      && n <= |files| && (n <= config.concurrency || n <= 1)
      && (n == |files| || n == config.concurrency || (n == 1 && config.concurrency < 1))
  {
    AlwaysOk(config, files, token, events);
  }

  // ----- how many batches -----

  // Batches that leave files behind are full.
  ghost predicate FullBatches(p: Pool) {
    && (forall i :: 0 <= i < |p.log| ==> p.log[i].Batch?)
    && (forall i :: 0 <= i < |p.log| && (p.queue != [] || i < |p.log| - 1) ==> |p.log[i].files| == p.batchSize)
    && (forall i :: 0 <= i < |p.log| ==> |p.log[i].files| > 0)
  }

  ghost predicate OneProject(config: Config, files: seq<TestFile>) {
    forall i :: 0 <= i < |files| ==>
        files[i].projectName == files[0].projectName && !config.isolated(files[i].projectName)
  }

  lemma {:induction false} FullKept(config: Config, files: seq<TestFile>, p: Pool, e: Event)
    requires config.bail == 0 && OneProject(config, files)
    requires PoolOk(config, files, p) && DrainsByBail(config, p) && FullBatches(p)
    ensures FullBatches(Next(config, p, e))
  {
    if e.Turn? && Can(p, e) && p.queue != [] && !Stopped(p) {
      var done := |FilesOf(p.log)|;
      assert forall i :: 0 <= i < |p.queue| ==> p.queue[i] == files[done + i];
      assert files[done].projectName == files[0].projectName;
      SameProjectIsMaximal(p.queue, p.queue[0].projectName, p.batchSize);
    }
  }

  lemma {:induction false} AlwaysFull(config: Config, files: seq<TestFile>, token: int, events: seq<Event>)
    requires config.bail == 0 && OneProject(config, files)
    ensures FullBatches(After(config, files, token, events))
  {
    if events != [] {
      var front := events[..|events| - 1];
      AlwaysOk(config, files, token, front);
      AlwaysFull(config, files, token, front);
      FullKept(config, files, After(config, files, token, front), events[|events| - 1]);
    }
  }

  lemma {:induction false} FullLength(log: seq<Taken>, size: nat)
    requires forall i :: 0 <= i < |log| ==> log[i].Batch? && |log[i].files| == size
    ensures |FilesOf(log)| == |log| * size
  {
    if log != [] {
      FullLength(log[..|log| - 1], size);
      assert |log| * size == (|log| - 1) * size + size;
    }
  }

  lemma {:induction false} MoreTimes(a: nat, b: nat, size: nat)
    requires a >= b
    ensures a * size >= b * size
  {
    assert a * size == b * size + (a - b) * size;
  }

  lemma {:induction false} FewerThanLanes(config: Config, batches: nat, n: nat)
    requires config.bail == 0 && n > 0 && batches * BatchSize(config, n) < n
    ensures batches < Lanes(config.concurrency)
  {
    var lanes, size := Lanes(config.concurrency), BatchSize(config, n);
    CeilDivCovers(n, lanes);
    assert size == CeilDiv(n, lanes) || (size == 1 && CeilDiv(n, lanes) < 1);
    MoreTimes(size, CeilDiv(n, lanes), lanes);
    assert lanes * size >= n;
    if batches >= lanes {
      MoreTimes(batches, lanes, size);
    }
  }

  /** Without bail one non-isolated project makes at most as many batches as there are lanes. */
  lemma {:induction false} AtMostOneBatchPerLane(config: Config, files: seq<TestFile>, token: int, events: seq<Event>)
    requires config.bail == 0 && OneProject(config, files)
    ensures |After(config, files, token, events).log| <= Lanes(config.concurrency)
  {
    AlwaysOk(config, files, token, events);
    AlwaysFull(config, files, token, events);
    var p := After(config, files, token, events);
    var lanes := Lanes(config.concurrency);
    if p.log != [] {
      var front, last := p.log[..|p.log| - 1], p.log[|p.log| - 1];
      assert p.log == front + [last];
      FilesOfMore(front, last);
      FullLength(front, p.batchSize);
      assert |front| * p.batchSize < |files|;
      FewerThanLanes(config, |front|, |files|);
    }
  }

  // ----- the shared queue -----

  class PoolRun {
    const config: Config
    const batchSize: nat
    const token: int
    var queue: seq<TestFile>
    var workers: seq<Worker>
    var cancelled: bool
    var currentToken: int
    ghost var log: seq<Taken>

    ghost function Value(): Pool
      reads this
    {
      Pool(queue, workers, log, batchSize, token, currentToken, cancelled)
    }

    constructor (config: Config, files: seq<TestFile>, token: int)
      ensures Value() == Fresh(config, files, token) && this.config == config
    {
      this.config, this.token := config, token;
      var size := if config.bail != 0 then 1 else CeilDiv(|files|, Lanes(config.concurrency));
      batchSize := if size < 1 then 1 else size;
      queue := files;
      workers := seq(WorkerCount(config, |files|), _ => Idle);
      cancelled, currentToken, log := false, token, [];
    }

    method Shift() returns (file: Option<TestFile>)
      modifies this`queue
      ensures if old(queue) == [] then file == None && queue == []
          else file == Some(old(queue)[0]) && queue == old(queue)[1..]
    {
      if queue == [] {
        return None;
      }
      file := Some(queue[0]);
      queue := queue[1..];
    }

    /** Takes the next batch off the queue: its first file and, unless isolated, what follows of the same project. */
    method NextBatch() returns (batch: seq<TestFile>)
      requires queue != [] && batchSize >= 1
      modifies this`queue
      ensures var k := BatchLength(config, old(queue), batchSize);
        k <= |old(queue)| && batch == old(queue)[..k] && queue == old(queue)[k..]
    {
      var next := Shift();
      batch := [next.value];
      BatchLengthFits(config, old(queue), batchSize);
      if !config.isolated(next.value.projectName) {
        while |batch| < batchSize && queue != [] && queue[0].projectName == next.value.projectName
          invariant 1 <= |batch| <= |old(queue)| && |batch| <= batchSize
          invariant batch == old(queue)[..|batch|] && queue == old(queue)[|batch|..]
          invariant BatchLength(config, old(queue), batchSize)
              == |batch| + SameProject(queue, next.value.projectName, batchSize - |batch|)
        {
          var more := Shift();
          batch := batch + [more.value];
        }
      }
    }

    /** One turn of a worker's loop, up to its next await. */
    method WorkerTurn(w: nat, failedTests: nat)
      requires w < |workers| && workers[w] == Idle && batchSize >= 1
      modifies this
      ensures Value() == Next(config, old(Value()), Turn(w, failedTests))
      ensures old(queue) == [] || cancelled || token != currentToken ==>
        queue == old(queue) && log == old(log) && workers == old(workers)[w := Finished]
      ensures old(queue) != [] && !cancelled && token == currentToken ==>
        if config.bail != 0 && failedTests >= config.bail
        then queue == old(queue)[1..] && log == old(log) + [Skip(old(queue)[0])] && workers[w] == Draining
        else
          var k := BatchLength(config, old(queue), batchSize);
          && 0 < k <= |old(queue)| && queue == old(queue)[k..] && log == old(log) + [Batch(old(queue)[..k])]
          && workers[w] == Running
      ensures cancelled == old(cancelled) && currentToken == old(currentToken)
    {
      if queue == [] || cancelled || token != currentToken {
        workers := workers[w := Finished];
        return;
      }
      if config.bail != 0 && failedTests >= config.bail {
        var skipped := Shift();
        log := log + [Skip(skipped.value)];
        workers := workers[w := Draining];
        return;
      }
      BatchLengthFits(config, queue, batchSize);
      var batch := NextBatch();
      log := log + [Batch(batch)];
      workers := workers[w := Running];
    }

    /** Going on with the drain after a skipped file was reported. */
    method DrainTurn(w: nat)
      requires w < |workers| && workers[w] == Draining && batchSize >= 1
      modifies this
      ensures Value() == Next(config, old(Value()), SkipReported(w, false))
      ensures if old(queue) == [] then queue == [] && log == old(log) && workers[w] == Finished
        else queue == old(queue)[1..] && log == old(log) + [Skip(old(queue)[0])] && workers[w] == Draining
    {
      var skipped := Shift();
      if skipped.None? {
        workers := workers[w := Finished];
      } else {
        log := log + [Skip(skipped.value)];
        workers := workers[w := Draining];
      }
    }
  }
}
