/** Client code driving a HostService the way its callers do (the UI's
    onResume()/onDestroy(), the accept loop, the connection threads), with
    what each sequence of calls leaves behind. */
module HostScenarios {
  import opened HostEvents
  import opened AcceptSpec
  import opened HostServiceModel

  /** A lifecycle call the UI makes. */
  datatype Call = CallStart | CallStop

  /** Whether an accept loop is referenced after `calls`, starting from a new
      session: exactly when the last call was start(). */
  predicate Armed(calls: seq<Call>)
  {
    calls != [] && calls[|calls| - 1] == CallStart
  }

  /** How many accept loops `calls` create: one for each start() that finds
      no loop, that is, a start() that is first or follows a stop(). */
  function Armings(calls: seq<Call>): (n: nat)
    ensures n <= |calls|
  {
    if calls == [] then 0
    else
      var before := calls[..|calls| - 1];
      Armings(before) + (if calls[|calls| - 1] == CallStart && !Armed(before) then 1 else 0)
  }

  /** Repeating start() creates no second accept loop, and neither does
      repeating stop(); after stop(), one start() creates exactly one. */
  lemma ArmingsIdempotent(calls: seq<Call>)
    ensures Armings(calls + [CallStart, CallStart]) == Armings(calls + [CallStart])
    ensures Armings(calls + [CallStop, CallStop]) == Armings(calls + [CallStop])
    ensures Armings(calls + [CallStop, CallStart]) == Armings(calls) + 1
  {
    assert (calls + [CallStart, CallStart])[..|calls| + 1] == calls + [CallStart];
    assert (calls + [CallStop, CallStop])[..|calls| + 1] == calls + [CallStop];
    assert (calls + [CallStop, CallStart])[..|calls| + 1] == calls + [CallStop];
    assert (calls + [CallStart])[..|calls|] == calls;
    assert (calls + [CallStop])[..|calls|] == calls;
  }

  /** Runs `calls` on a new session. The state is LISTENING exactly when the
      last call was start() (NONE for no call at all), an accept loop is
      referenced exactly then, no connection survives, and the number of
      accept loops created is Armings(calls). */
  method Lifecycle(calls: seq<Call>) returns (final: HostState, armed: bool, live: nat, created: nat)
    ensures final == (if Armed(calls) then Listening else None)
    ensures armed == Armed(calls)
    ensures live == 0
    ensures created == Armings(calls)
  {
    var h := new HostService();
    created := 0;
    for i := 0 to |calls|
      invariant fresh(h) && h.Valid() && h.connections == []
      invariant h.acceptLoop != null ==> fresh(h.acceptLoop)
      invariant h.state == (if Armed(calls[..i]) then Listening else None)
      invariant (h.acceptLoop != null) == Armed(calls[..i])
      invariant created == Armings(calls[..i])
    {
      assert calls[..i + 1][..i] == calls[..i];
      var prev := h.acceptLoop;
      match calls[i] {
        case CallStart =>
          h.Start();
        case CallStop =>
          h.Stop();
      }
      if h.acceptLoop != null && h.acceptLoop != prev {
        created := created + 1;
      }
    }
    assert calls[..|calls|] == calls;
    final := h.GetState();
    armed := h.acceptLoop != null;
    live := h.NumConnections();
  }

  /** start() twice with a peer connected in between: the peer is cancelled,
      no connection is left, and the second start() keeps the first one's
      accept loop. */
  method RestartWithPeer(d: Device) returns (live: nat, peerCancelled: bool, sameLoop: bool)
    ensures live == 0 && peerCancelled && sameLoop
  {
    var h := new HostService();
    h.Start();
    var first := h.acceptLoop;
    h.Connected(d);
    var peer := h.connections[0];
    h.Start();
    live := h.NumConnections();
    peerCancelled := peer.cancelled;
    sameLoop := h.acceptLoop == first && first != null;
  }

  /** A peer connects, a message is broadcast to it, then its read fails:
      the peer's stream got exactly the message, the manager is LISTENING
      with no connection left, and the UI saw, in order, the state change
      of start(), the peer's name and state change, the sent message, the
      loss toast and the state changes of connectionLost() and start(). */
  method BroadcastThenLoss(peer: Device, msg: seq<Byte>) returns (received: seq<seq<Byte>>, live: nat, state: HostState, ui: seq<Event>)
    ensures received == [msg]
    ensures live == 0 && state == Listening
    ensures ui == [StateChange(1), DeviceName(peer.name), StateChange(1), Written(msg),
                   Toast(ConnectionLostText), StateChange(1), StateChange(1)]
  {
    var h := new HostService();
    h.Start();
    h.Connected(peer);
    var c := h.connections[0];
    h.Write(msg, [true]);
    assert WriteEvents(msg, [true]) == [Written(msg)] by {
      assert [true][..0] == [];
    }
    received := c.sent;
    h.ReadFailed(c);
    live := h.NumConnections();
    state := h.GetState();
    ui := h.messages;
  }

  /** stop() between two passes of the accept loop: a first peer was handed
      to connected(), then stop() drops it and sets NONE, and the next socket
      the still-running loop accepts is closed unadmitted together with the
      server socket, and the loop quits, leaving the host NONE with no
      connection. */
  method StopBetweenAccepts(first: Device, late: Device) returns (state: HostState, live: nat, lateClosed: bool, running: bool)
    ensures state == None && live == 0 && lateClosed && !running
  {
    var h := new HostService();
    h.Start();
    var loop := h.acceptLoop;
    h.Connected(first);
    h.Stop();
    var quit, rejected, added := h.AcceptOnce(loop, Accepted(late));
    state := h.GetState();
    live := h.NumConnections();
    lateClosed := rejected != null && rejected.cancelled && loop.serverClosed;
    running := loop.running;
  }

  /** An accept error ends the accept loop but leaves it referenced, so a
      later start() does not create a new one: the host is LISTENING while
      no accept loop is running. */
  method AcceptErrorThenStart() returns (state: HostState, referenced: bool, running: bool)
    ensures state == Listening && referenced && !running
  {
    var h := new HostService();
    h.Start();
    var loop := h.acceptLoop;
    var quit, rejected, added := h.AcceptOnce(loop, AcceptFailed);
    h.Start();
    state := h.GetState();
    referenced := h.acceptLoop == loop;
    running := loop.running;
  }

  /** The code as written: stop() cancels a live peer, the peer's blocked
      read then throws, and its recovery restarts the host, which ends up
      LISTENING with a new accept loop although stop() was the last call. */
  method StopThenOwnCancelAsWritten(peer: Device) returns (state: HostState, armed: bool)
    ensures state == Listening && armed
  {
    var h := new HostService();
    h.Start();
    h.Connected(peer);
    var c := h.connections[0];
    h.Stop();
    h.ReadFailed(c);
    state := h.GetState();
    armed := h.acceptLoop != null;
  }

  /** With the corrected read-failure handling the same sequence leaves the
      host stopped: NONE, with no accept loop and no connection. */
  method StopThenOwnCancelCorrected(peer: Device) returns (state: HostState, armed: bool, live: nat)
    ensures state == None && !armed && live == 0
  {
    var h := new HostService();
    h.Start();
    h.Connected(peer);
    var c := h.connections[0];
    h.Stop();
    h.ReadFailedCorrected(c);
    state := h.GetState();
    armed := h.acceptLoop != null;
    live := h.NumConnections();
  }

  /** The same mechanism after start(): start() cancels a peer, a second peer
      joins, and then the first peer's blocked read throws. As written, its
      recovery runs start() again and drops the second peer too. */
  method RestartThenOwnCancelAsWritten(first: Device, second: Device) returns (live: nat, secondCancelled: bool)
    ensures live == 0 && secondCancelled
  {
    var h := new HostService();
    h.Start();
    h.Connected(first);
    var c1 := h.connections[0];
    h.Start();
    h.Connected(second);
    var c2 := h.connections[0];
    h.ReadFailed(c1);
    live := h.NumConnections();
    secondCancelled := c2.cancelled;
  }

  /** With the corrected read-failure handling the second peer stays
      connected and the host stays LISTENING. */
  method RestartThenOwnCancelCorrected(first: Device, second: Device) returns (live: nat, secondCancelled: bool, state: HostState)
    ensures live == 1 && !secondCancelled && state == Listening
  {
    var h := new HostService();
    h.Start();
    h.Connected(first);
    var c1 := h.connections[0];
    h.Start();
    h.Connected(second);
    var c2 := h.connections[0];
    h.ReadFailedCorrected(c1);
    live := h.NumConnections();
    secondCancelled := c2.cancelled;
    state := h.GetState();
  }
}
