/** Acknowledgements of the committed file set's version, and the waits for them. */
module FrameSet {
  datatype End = Ready | TimedOut

  type WaitId = nat

  /**
   `waiters` are the pending waits with the version each wants, `ended` the finished ones. `wants` and `acks` are
   history: what every wait wanted, and the acknowledgements accepted since the last reset.
   */
  datatype Frames = Frames(
    acked: int,
    committed: int,
    waiters: map<WaitId, int>,
    ended: map<WaitId, End>,
    wants: seq<int>,
    acks: seq<int>)

  datatype Event =
    | Acknowledge(version: int)
    | WaitFor(version: int)
    | Timeout(waitId: WaitId)
    | Commit
    | Reset

  ghost function Fresh(committed: int): Frames {
    Frames(0, committed, map[], map[], [], [])
  }

  ghost predicate Can(s: Frames, e: Event) {
    e.Timeout? ==> e.waitId in s.waiters
  }

  ghost function Reached(waiters: map<WaitId, int>, version: int): set<WaitId> {
    set w | w in waiters && waiters[w] <= version
  }

  ghost function Release(s: Frames, ids: set<WaitId>): Frames {
    s.(waiters := s.waiters - ids, ended := s.ended + map w | w in ids :: Ready)
  }

  ghost function Next(s: Frames, e: Event): Frames {
    if !Can(s, e) then s else
    match e
    case Acknowledge(version) =>
      if version > s.committed then s else
        var acked := if version > s.acked then version else s.acked;
        Release(s.(acked := acked, acks := s.acks + [version]), Reached(s.waiters, acked))
    case WaitFor(version) =>
      var asked := s.(wants := s.wants + [version]);
      if s.acked >= version then asked.(ended := s.ended[|s.wants| := Ready])
          else asked.(waiters := s.waiters[|s.wants| := version])
    case Timeout(w) => s.(waiters := s.waiters - {w}, ended := s.ended[w := TimedOut])
    case Commit => s.(committed := s.committed + 1)
    case Reset => s.(acked := 0, acks := [])
  }

  // The highest acknowledgement since the last reset is the one that counts; none counts as zero.
  ghost predicate FramesOk(s: Frames) {
    && 0 <= s.acked <= s.committed
    && (s.acked > 0 ==> s.acked in s.acks) && (forall a :: a in s.acks ==> a <= s.acked)
    && (forall w :: w in s.waiters ==> w < |s.wants| && w !in s.ended && s.waiters[w] == s.wants[w] > s.acked)
    && (forall w: nat :: w < |s.wants| ==> w in s.waiters || w in s.ended)
    && (forall w :: w in s.ended ==> w < |s.wants|)
  }

  lemma {:induction false} NextKeepsOk(s: Frames, e: Event)
    requires FramesOk(s)
    ensures FramesOk(Next(s, e))
  {
  }

  ghost function After(committed: int, events: seq<Event>): Frames {
    if events == [] then Fresh(committed) else Next(After(committed, events[..|events| - 1]), events[|events| - 1])
  }

  /**
   In every run the accepted acknowledgement stays within the committed version, and every pending wait wants more.
   */
  lemma {:induction false} AlwaysOk(committed: int, events: seq<Event>)
    requires committed >= 0
    ensures var s := After(committed, events);
      FramesOk(s) && s.acked <= s.committed && forall w :: w in s.waiters ==> s.waiters[w] > s.acked
  {
    if events != [] {
      AlwaysOk(committed, events[..|events| - 1]);
      NextKeepsOk(After(committed, events[..|events| - 1]), events[|events| - 1]);
    }
  }

  ghost predicate EndsReady(s: Frames, e: Event, w: WaitId) {
    w !in s.ended && w in Next(s, e).ended && Next(s, e).ended[w] == Ready
  }

  ghost function Commits(events: seq<Event>): nat {
    if events == [] then 0 else Commits(events[..|events| - 1]) + if events[|events| - 1] == Commit then 1 else 0
  }

  // Some event since the last reset acknowledges a version of at least some number.
  ghost predicate AckedSinceReset(events: seq<Event>, least: int) {
    exists j :: 0 <= j < |events| && events[j].Acknowledge? && events[j].version >= least
      && forall k :: j < k < |events| ==> events[k] != Reset
  }

  lemma {:induction false} AckedStays(events: seq<Event>, e: Event, least: int)
    requires AckedSinceReset(events, least) && e != Reset
    ensures AckedSinceReset(events + [e], least)
  {
    var j :| 0 <= j < |events| && events[j].Acknowledge? && events[j].version >= least
        && forall k :: j < k < |events| ==> events[k] != Reset;
    var more := events + [e];
    assert more[j] == events[j];
    forall k | j < k < |more| ensures more[k] != Reset {
      assert k < |events| ==> more[k] == events[k];
    }
  }

  lemma {:induction false} AckedMore(events: seq<Event>, least: int, less: int)
    requires AckedSinceReset(events, least) && less <= least
    ensures AckedSinceReset(events, less)
  {
  }

  /** Versions count the commits, and what counts as acknowledged has been so since the last reset. */
  lemma {:induction false} CountsCommits(committed: int, events: seq<Event>)
    ensures After(committed, events).committed == committed + Commits(events)
    ensures forall a :: a in After(committed, events).acks ==> AckedSinceReset(events, a)
  {
    if events != [] {
      var front, e := events[..|events| - 1], events[|events| - 1];
      assert events == front + [e];
      CountsCommits(committed, front);
      forall a | a in After(committed, events).acks ensures AckedSinceReset(events, a) {
        if a in After(committed, front).acks && e != Reset {
          AckedStays(front, e, a);
        } else {
          assert events[|front|] == e && e == Acknowledge(a);
        }
      }
    }
  }

  /** A wait for a version ends normally only with an acknowledgement of at least that version since the last reset. */
  lemma {:induction false} ReadyOnlyAfterAck(committed: int, events: seq<Event>, e: Event, w: WaitId)
    requires committed >= 0 && EndsReady(After(committed, events), e, w)
    ensures var t := Next(After(committed, events), e);
      w < |t.wants| && (t.wants[w] >= 1 ==> AckedSinceReset(events + [e], t.wants[w]))
  {
    AlwaysOk(committed, events);
    assert (events + [e])[..|events|] == events;
    CountsCommits(committed, events + [e]);
    var s := After(committed, events);
    var t := Next(s, e);
    NextKeepsOk(s, e);
    assert t.acked >= t.wants[w];
    if t.wants[w] >= 1 {
      assert t.acked in t.acks;
      AckedMore(events + [e], t.acked, t.wants[w]);
    }
  }

  /**
   Before any acknowledgement a wait ends at once exactly when it asks for version zero or less; versions start at one.
   */
  lemma {:induction false} EmptyWaitIff(committed: int, events: seq<Event>, version: int)
    requires committed >= 0 && After(committed, events).acks == []
    ensures EndsReady(After(committed, events), WaitFor(version), |After(committed, events).wants|) <==> version <= 0
  {
    AlwaysOk(committed, events);
  }

  /** An acknowledgement that counts ends every wait it reaches, and no other. */
  lemma {:induction false} AckReleases(s: Frames, version: int, w: WaitId)
    requires FramesOk(s) && version <= s.committed && w in s.waiters
    ensures EndsReady(s, Acknowledge(version), w) <==> version >= s.waiters[w]
  {
  }

  lemma {:induction false} ReleaseNone(s: Frames)
    ensures Release(s, {}) == s
  {
    assert Release(s, {}).waiters == s.waiters;
    assert Release(s, {}).ended == s.ended;
  }

  lemma {:induction false} ReleaseOneMore(s: Frames, ids: set<WaitId>, w: WaitId)
    ensures Release(s, ids + {w})
        == Release(s, ids).(waiters := Release(s, ids).waiters - {w}, ended := Release(s, ids).ended[w := Ready])
  {
    var t, u := Release(s, ids + {w}), Release(s, ids);
    assert t.waiters == u.waiters - {w};
    assert t.ended == u.ended[w := Ready];
  }

  class FrameSetTracker {
    var ackedFrameSetVersion: int
    var headedFileSetVersion: int
    var frameSetWaiters: map<WaitId, int>
    var ended: map<WaitId, End>
    ghost var wants: seq<int>
    ghost var acks: seq<int>
    var nextId: nat

    ghost function Value(): Frames
      reads this
    {
      Frames(ackedFrameSetVersion, headedFileSetVersion, frameSetWaiters, ended, wants, acks)
    }

    ghost predicate Valid()
      reads this
    {
      nextId == |wants| && FramesOk(Value())
    }

    constructor (committed: nat)
      ensures Valid() && Value() == Fresh(committed)
    {
      ackedFrameSetVersion, headedFileSetVersion, frameSetWaiters, ended, nextId := 0, committed, map[], map[], 0;
      wants, acks := [], [];
    }

    method MarkFrameSetReady(version: int)
      requires Valid()
      modifies this
      ensures Valid() && Value() == Next(old(Value()), Acknowledge(version))
    {
      NextKeepsOk(Value(), Acknowledge(version));
      if version > headedFileSetVersion {
        return;
      }
      if version > ackedFrameSetVersion {
        ackedFrameSetVersion := version;
      }
      acks := acks + [version];
      ReleaseReached();
    }

    // Ends the waits the acknowledgement reaches, one after the other.
    method ReleaseReached()
      modifies this
      ensures Value() == Release(old(Value()), Reached(old(frameSetWaiters), old(ackedFrameSetVersion)))
          && nextId == old(nextId)
    {
      ghost var released: set<WaitId> := {};
      var pending := frameSetWaiters.Keys;
      ReleaseNone(Value());
      while pending != {}
        invariant pending <= frameSetWaiters.Keys && nextId == old(nextId)
        invariant released <= Reached(old(frameSetWaiters), old(ackedFrameSetVersion)) <= released + pending
        invariant Value() == Release(old(Value()), released)
        decreases pending
      {
        var w :| w in pending;
        pending := pending - {w};
        if frameSetWaiters[w] <= ackedFrameSetVersion {
          ReleaseOneMore(old(Value()), released, w);
          frameSetWaiters := frameSetWaiters - {w};
          ended := ended[w := Ready];
          released := released + {w};
        }
      }
      assert released == Reached(old(frameSetWaiters), old(ackedFrameSetVersion));
    }

    method WaitForFrameSet(version: int) returns (waitId: WaitId, pending: bool)
      requires Valid()
      modifies this
      ensures Valid() && Value() == Next(old(Value()), WaitFor(version))
      ensures waitId == |old(wants)| && pending == (version > ackedFrameSetVersion)
    {
      NextKeepsOk(Value(), WaitFor(version));
      waitId, pending := nextId, version > ackedFrameSetVersion;
      if pending {
        frameSetWaiters := frameSetWaiters[waitId := version];
      } else {
        ended := ended[waitId := Ready];
      }
      nextId := nextId + 1;
      wants := wants + [version];
    }

    method TimesOut(waitId: WaitId)
      requires Valid() && waitId in frameSetWaiters
      modifies this
      ensures Valid() && Value() == Next(old(Value()), Timeout(waitId))
    {
      NextKeepsOk(Value(), Timeout(waitId));
      frameSetWaiters := frameSetWaiters - {waitId};
      ended := ended[waitId := TimedOut];
    }

    method CommitFileSet() returns (version: int)
      requires Valid()
      modifies this
      ensures Valid() && Value() == Next(old(Value()), Commit) && version == headedFileSetVersion
    {
      NextKeepsOk(Value(), Commit);
      headedFileSetVersion := headedFileSetVersion + 1;
      version := headedFileSetVersion;
    }

    method ResetAcknowledged()
      requires Valid()
      modifies this
      ensures Valid() && Value() == Next(old(Value()), Reset)
    {
      NextKeepsOk(Value(), Reset);
      ackedFrameSetVersion := 0;
      acks := [];
    }
  }
}
