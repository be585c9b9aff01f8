/** The container's transport: one socket at a time, and an epoch that grows with every attachment. */
module ContainerRpc {
  import opened Wrappers
  import opened RunRegistry

  type Socket = int

  ghost predicate NoneOpen(s: State) {
    forall id :: !IsOpen(s, id)
  }

  ghost predicate SameClaimed(s: State, t: State) {
    forall id :: IsClaimed(s, id) <==> IsClaimed(t, id)
  }

  // What losing the transport leaves.
  lemma {:induction false} DisconnectLeaves(s: State)
    requires Sound(s)
    ensures var t := Step(s, Op.RejectAll);
      Sound(t) && t.epoch == s.epoch && NoneOpen(t) && SameClaimed(s, t)
  {
    StepKeepsSound(s, Op.RejectAll);
  }

  class ContainerRpcManager {
    const registry: HeadedRunRegistry
    var ws: Option<Socket>
    var rpcOpen: bool
    var listening: Option<Socket>  // the socket whose close event still has our listener
    var transportEpoch: int

    // The socket, its listener and its rpc come and go together, and the registry knows the current epoch.
    ghost predicate Valid()
      reads this, registry
    {
      && registry.Valid() && Sound(registry.Value())
      && transportEpoch == registry.transportEpoch
      && ws == listening && (rpcOpen <==> ws.Some?)
    }

    constructor (registry: HeadedRunRegistry)
      requires registry.Valid() && registry.Value() == Initial()
      ensures Valid() && this.registry == registry && ws == None && transportEpoch == 0
    {
      this.registry := registry;
      ws, rpcOpen, listening, transportEpoch := None, false, None, 0;
    }

    /** Every attachment raises the epoch, and with it settles every open run; claimed ones stay with their handlers. */
    method AttachWebSocket(socket: Socket)
      requires Valid()
      modifies this, registry
      ensures Valid() && ws == Some(socket) && transportEpoch == old(transportEpoch) + 1
      ensures registry.Value() == Step(old(registry.Value()), SetTransportEpoch(transportEpoch))
      ensures NoneOpen(registry.Value()) && SameClaimed(old(registry.Value()), registry.Value())
    {
      listening := None;
      rpcOpen := false;
      transportEpoch := transportEpoch + 1;
      StepKeepsSound(registry.Value(), Op.SetTransportEpoch(transportEpoch));
      NewTransportSweeps(registry.Value(), transportEpoch);
      registry.SetTransportEpoch(transportEpoch);
      ws := Some(socket);
      rpcOpen := true;
      listening := Some(socket);
    }

    /**
     A close event counts only for the attached socket; then no open run is left. A replaced socket's close changes
     nothing.
     */
    method SocketCloses(socket: Socket)
      requires Valid()
      modifies this, registry
      ensures Valid() && transportEpoch == old(transportEpoch)
      ensures if old(ws) == Some(socket)
              then ws == None && registry.Value() == Step(old(registry.Value()), Op.RejectAll)
                  && NoneOpen(registry.Value())
                   && SameClaimed(old(registry.Value()), registry.Value())
              else ws == old(ws) && registry.Value() == old(registry.Value())
    {
      if listening != Some(socket) {
        return;
      }
      if ws == Some(socket) {
        ws := None;
      }
      listening := None;
      if rpcOpen {
        rpcOpen := false;
        DisconnectLeaves(registry.Value());
        registry.RejectAll();
      }
    }
  }
}
