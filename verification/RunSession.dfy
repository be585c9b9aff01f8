/** Run tokens and sessions: one session is active, and a token once stale stays stale. */
module RunSession {
  import opened Wrappers

  // What cancelling waits for: the caller's callback, the end of the session's work.
  datatype Wait = OnCancel | Done

  datatype CancelOptions = CancelOptions(waitForDone: Option<bool>, hasOnCancel: bool)

  class Session {
    const token: int
    var cancelled: bool
    var hasDone: bool      // its work is under way or over
    var signals: nat       // how often the cancel signal was sent
    var onCancelCalls: nat // how often a cancel callback was called for it

    constructor (token: int)
      ensures this.token == token && !cancelled && !hasDone && signals == onCancelCalls == 0
    {
      this.token := token;
      cancelled, hasDone := false, false;
      signals, onCancelCalls := 0, 0;
    }

    ghost predicate Valid()
      reads this
    {
      signals == (if cancelled then 1 else 0) && onCancelCalls <= signals
    }
  }

  class RunSessionLifecycle {
    var currentToken: int
    var active: Session?
    ghost var issued: set<int>  // tokens of the sessions created

    ghost predicate Valid()
      reads this, active
    {
      && (forall t :: t in issued ==> t <= currentToken)
      && (active != null ==> active.Valid() && active.token in issued)
    }

    constructor ()
      ensures Valid() && currentToken == 0 && active == null && issued == {}
    {
      currentToken, active, issued := 0, null, {};
    }

    predicate IsTokenActive(token: int)
      reads this
    {
      token == currentToken
    }

    /** A new session has a token no session had before, and makes every earlier one stale. */
    method CreateSession() returns (session: Session)
      requires Valid()
      modifies this
      ensures Valid() && fresh(session) && active == session && session.Valid() && !session.cancelled
      ensures session.token !in old(issued) && issued == old(issued) + {session.token}
      ensures IsTokenActive(session.token) && forall t :: t in old(issued) ==> !IsTokenActive(t)
      ensures currentToken > old(currentToken)
    {
      currentToken := currentToken + 1;
      session := new Session(currentToken);
      active := session;
      issued := issued + {currentToken};
    }

    /** No issued token is active afterwards, nor will be again. */
    method InvalidateActiveToken() returns (token: int)
      requires Valid()
      modifies this
      ensures Valid() && active == old(active) && issued == old(issued)
      ensures token == currentToken > old(currentToken) && forall t :: t in issued ==> !IsTokenActive(t)
    {
      currentToken := currentToken + 1;
      token := currentToken;
    }

    method ClearIfActive(session: Session)
      requires Valid()
      modifies this
      ensures Valid() && currentToken == old(currentToken) && issued == old(issued)
      ensures active == if old(active) == session then null else old(active)
    {
      if active == session {
        active := null;
      }
    }

    /**
     Cancelling is idempotent: over any number of calls the signal goes out once, and at most one callback is called,
     the first caller's. Every caller waits for the session's work unless it asked not to.
     */
    method Cancel(session: Session, options: Option<CancelOptions>) returns (waits: seq<Wait>)
      requires session.Valid()
      modifies session
      ensures session.Valid() && session.cancelled && session.signals == 1 && session.hasDone == old(session.hasDone)
      ensures OnCancel in waits <==> !old(session.cancelled) && options.Some? && options.value.hasOnCancel
      ensures session.onCancelCalls == old(session.onCancelCalls) + if OnCancel in waits then 1 else 0
      ensures Done in waits <==> session.hasDone && WaitsForDone(options)
      ensures waits == [] || waits == [OnCancel] || waits == [Done] || waits == [OnCancel, Done]
    {
      waits := [];
      var waitForDone := WaitsForDone(options);
      if !session.cancelled {
        session.cancelled := true;
        session.signals := session.signals + 1;
        if options.Some? && options.value.hasOnCancel {
          session.onCancelCalls := session.onCancelCalls + 1;
          waits := waits + [OnCancel];
        }
      }
      if waitForDone && session.hasDone {
        waits := waits + [Done];
      }
    }
  }

  predicate WaitsForDone(options: Option<CancelOptions>) {
    options.None? || options.value.waitForDone.None? || options.value.waitForDone.value
  }
}
