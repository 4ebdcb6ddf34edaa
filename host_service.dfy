/** The host-side connection manager (HostService) and the two kinds of worker
    it owns: the accept loop (AcceptThread, with its server socket) and one
    connection per accepted peer (ConnectedThread, with its socket).

    Threads are not modelled: each operation is one atomic step, and whatever
    a blocking I/O call produced (a write that succeeded or threw, the result
    of accept(), a read that threw) arrives as a parameter. The UI's Handler is
    the append-only log `messages`. */
module HostServiceModel {
  import opened HostEvents
  import opened AcceptSpec

  /** A ConnectedThread together with the BluetoothSocket it owns. A socket
      the accept loop accepts while NONE is represented the same way, closed
      at once and never listed. */
  class Connection {
    /** The remote device the socket is connected to. */
    const device: Device
    /** Whether cancel() has closed the socket. */
    var cancelled: bool
    /** The buffers the socket's output stream took, oldest first. */
    var sent: seq<seq<Byte>>

    constructor (device: Device)
      ensures this.device == device && !cancelled && sent == []
    {
      this.device := device;
      cancelled := false;
      sent := [];
    }

    /** cancel(): close the socket; an IOException from close() is ignored. */
    method Cancel()
      modifies this
      ensures cancelled && sent == old(sent)
    {
      cancelled := true;
    }

    /** outputStream.write(buffer), which succeeds exactly when `ok`; a write
        that throws delivers nothing. */
    method Send(buffer: seq<Byte>, ok: bool)
      modifies this
      ensures cancelled == old(cancelled)
      ensures sent == if ok then old(sent) + [buffer] else old(sent)
    {
      if ok {
        sent := sent + [buffer];
      }
    }
  }

  /** An AcceptThread together with its server socket. */
  class AcceptLoop {
    /** Whether the thread is still inside its `while (true)` loop. */
    var running: bool
    /** Whether the server socket has been closed. */
    var serverClosed: bool

    /** new AcceptThread() opens the server socket; start() sets it running. */
    constructor ()
      ensures running && !serverClosed
    {
      running := true;
      serverClosed := false;
    }

    /** mmServerSocket.close(). */
    method CloseServer()
      modifies this
      ensures serverClosed && running == old(running)
    {
      serverClosed := true;
    }

    /** Leaving the loop, by `break` or by the `quit` flag. */
    method Exit()
      modifies this
      ensures !running && serverClosed == old(serverClosed)
    {
      running := false;
    }
  }

  /** The devices of a list of connections, in list order. */
  function DevicesOf(cs: seq<Connection>): (ds: seq<Device>)
    ensures |ds| == |cs|
  {
    if cs == [] then [] else DevicesOf(cs[..|cs| - 1]) + [cs[|cs| - 1].device]
  }

  lemma AppendAssoc<T>(a: seq<T>, b: seq<T>, c: seq<T>)
    ensures (a + b) + c == a + (b + c)
  {
  }

  lemma {:induction false} DevicesOfAppend(a: seq<Connection>, b: seq<Connection>)
    ensures DevicesOf(a + b) == DevicesOf(a) + DevicesOf(b)
  {
    if b == [] {
      assert a + b == a;
    } else {
      assert (a + b)[..|a + b| - 1] == a + b[..|b| - 1];
      DevicesOfAppend(a, b[..|b| - 1]);
    }
  }

  class HostService {
    var state: HostState
    /** acceptThread: at most one accept loop is referenced at a time. */
    var acceptLoop: AcceptLoop?
    /** connectedThreads, in the order the peers connected. */
    var connections: seq<Connection>
    /** Everything posted to the Handler so far, oldest first. */
    var messages: seq<Event>

    /** Every listed connection is a distinct, live (not cancelled) one. */
    ghost predicate Valid()
      reads this, connections
    {
      && (forall i, j :: 0 <= i < j < |connections| ==> connections[i] != connections[j])
      && (forall i :: 0 <= i < |connections| ==> !connections[i].cancelled)
    }

    /** A new session: state NONE, no accept loop, no connections, nothing posted. */
    constructor ()
      ensures Valid()
      ensures state == None && acceptLoop == null && connections == [] && messages == []
    {
      state := None;
      acceptLoop := null;
      connections := [];
      messages := [];
    }

    /** setState: record the state and post its ordinal to the UI. */
    method SetState(s: HostState)
      modifies this
      ensures state == s && messages == old(messages) + [StateEvent(s)]
      ensures acceptLoop == old(acceptLoop) && connections == old(connections)
    {
      state := s;
      messages := messages + [StateEvent(s)];
    }

    /** getState. */
    method GetState() returns (s: HostState)
      ensures s == state
    {
      s := state;
    }

    /** numConnections. */
    method NumConnections() returns (n: nat)
      ensures n == |connections|
    {
      n := |connections|;
    }

    /** The loop start() and stop() share: cancel every listed connection, in
        order, then replace the list by an empty one. */
    method CancelConnections()
      modifies this, connections
      ensures Valid() && connections == []
      ensures forall c :: c in old(connections) ==> c.cancelled && c.sent == old(c.sent)
      ensures state == old(state) && acceptLoop == old(acceptLoop) && messages == old(messages)
    {
      for i := 0 to |connections|
        invariant connections == old(connections)
        invariant state == old(state) && acceptLoop == old(acceptLoop) && messages == old(messages)
        invariant forall k :: 0 <= k < i ==> connections[k].cancelled
        invariant forall c :: c in old(connections) ==> c.sent == old(c.sent)
      {
        connections[i].Cancel();
      }
      connections := [];
    }

    /** start(): cancel and drop every connection, create an accept loop only
        when there is none, and go LISTENING. */
    method Start()
      modifies this, connections
      ensures Valid()
      ensures state == Listening && connections == []
      ensures forall c :: c in old(connections) ==> c.cancelled && c.sent == old(c.sent)
      ensures old(acceptLoop) != null ==> acceptLoop == old(acceptLoop)
      ensures old(acceptLoop) == null ==> acceptLoop != null && fresh(acceptLoop) && acceptLoop.running && !acceptLoop.serverClosed
      ensures messages == old(messages) + [StateEvent(Listening)]
    {
      CancelConnections();
      if acceptLoop == null {
        acceptLoop := new AcceptLoop();
      }
      SetState(Listening);
    }

    /** stop(): cancel and drop every connection, close the accept loop's
        server socket and forget the loop, and go NONE. */
    method Stop()
      modifies this, connections, acceptLoop
      ensures Valid()
      ensures state == None && connections == [] && acceptLoop == null
      ensures forall c :: c in old(connections) ==> c.cancelled && c.sent == old(c.sent)
      ensures old(acceptLoop) != null ==> old(acceptLoop).serverClosed && old(acceptLoop).running == old(acceptLoop.running)
      ensures messages == old(messages) + [StateEvent(None)]
    {
      CancelConnections();
      if acceptLoop != null {
        acceptLoop.CloseServer();
        acceptLoop := null;
      }
      SetState(None);
    }

    /** connected(socket, device): add one new live connection at the end of
        the list, post the device's name, and go LISTENING. */
    method Connected(d: Device)
      requires Valid()
      modifies this
      ensures Valid()
      ensures |connections| == |old(connections)| + 1 && connections[..|old(connections)|] == old(connections)
      ensures var c := connections[|connections| - 1];
        fresh(c) && c.device == d && !c.cancelled && c.sent == []
      ensures state == Listening && acceptLoop == old(acceptLoop)
      ensures messages == old(messages) + [DeviceName(d.name), StateEvent(Listening)]
    {
      var c := new Connection(d);
      connections := connections + [c];
      messages := messages + [DeviceName(d.name)];
      SetState(Listening);
    }

    /** ConnectedThread.write: write `buffer` to one connection, whose output
        stream takes it exactly when `ok`; a successful write is posted, a
        failed one is swallowed. */
    method WriteTo(c: Connection, buffer: seq<Byte>, ok: bool)
      modifies this, c
      ensures c.cancelled == old(c.cancelled)
      ensures c.sent == if ok then old(c.sent) + [buffer] else old(c.sent)
      ensures messages == old(messages) + if ok then [Written(buffer)] else []
      ensures state == old(state) && acceptLoop == old(acceptLoop) && connections == old(connections)
    {
      c.Send(buffer, ok);
      if ok {
        messages := messages + [Written(buffer)];
      }
    }

    /** write(out): write `out` once to every listed connection, in list
        order, where the k-th write succeeds exactly when oks[k]. */
    method Write(out: seq<Byte>, oks: seq<bool>)
      requires Valid() && |oks| == |connections|
      modifies this, connections
      ensures Valid()
      ensures state == old(state) && acceptLoop == old(acceptLoop) && connections == old(connections)
      ensures forall k :: 0 <= k < |connections| ==>
        connections[k].sent == old(connections[k].sent) + if oks[k] then [out] else []
      ensures messages == old(messages) + WriteEvents(out, oks)
    {
      for i := 0 to |connections|
        invariant state == old(state) && acceptLoop == old(acceptLoop) && connections == old(connections)
        invariant Valid()
        invariant forall k :: 0 <= k < i ==>
          connections[k].sent == old(connections[k].sent) + if oks[k] then [out] else []
        invariant forall k :: i <= k < |connections| ==> connections[k].sent == old(connections[k].sent)
        invariant messages == old(messages) + WriteEvents(out, oks[..i])
      {
        WriteTo(connections[i], out, oks[i]);
        assert oks[..i + 1][..i] == oks[..i];
      }
      assert oks[..|oks|] == oks;
    }

    /** connectionLost(): toast the loss and go LISTENING. */
    method ConnectionLost()
      modifies this
      ensures state == Listening
      ensures acceptLoop == old(acceptLoop) && connections == old(connections)
      ensures messages == old(messages) + [Toast(ConnectionLostText), StateEvent(Listening)]
    {
      messages := messages + [Toast(ConnectionLostText)];
      SetState(Listening);
    }

    /** The catch branch of ConnectedThread.run: the read on connection
        `failed` threw. The recovery never looks at `failed`: it reports the
        loss and restarts the whole host, so every listed connection is
        cancelled, not only the failing one. */
    method ReadFailed(failed: Connection)
      modifies this, connections
      ensures Valid()
      ensures state == Listening && connections == []
      ensures forall c :: c in old(connections) ==> c.cancelled && c.sent == old(c.sent)
      ensures old(acceptLoop) != null ==> acceptLoop == old(acceptLoop)
      ensures old(acceptLoop) == null ==> acceptLoop != null && fresh(acceptLoop) && acceptLoop.running && !acceptLoop.serverClosed
      ensures messages == old(messages) + [Toast(ConnectionLostText), StateEvent(Listening), StateEvent(Listening)]
    {
      ConnectionLost();
      Start();
    }

    /** The read-failure handling as evidently intended: a read that threw
        because the host itself cancelled the connection (in start() or
        stop()) is not a lost peer and ends the thread quietly; any other
        read failure is handled exactly as ReadFailed does. */
    method ReadFailedCorrected(failed: Connection)
      requires Valid()
      modifies this, connections
      ensures Valid()
      ensures old(failed.cancelled) ==>
        && state == old(state) && acceptLoop == old(acceptLoop)
        && connections == old(connections) && messages == old(messages)
        && (forall c :: c in connections ==> c.cancelled == old(c.cancelled) && c.sent == old(c.sent))
      ensures !old(failed.cancelled) ==>
        && state == Listening && connections == []
        && (forall c :: c in old(connections) ==> c.cancelled && c.sent == old(c.sent))
        && (old(acceptLoop) != null ==> acceptLoop == old(acceptLoop))
        && (old(acceptLoop) == null ==> acceptLoop != null && fresh(acceptLoop) && acceptLoop.running && !acceptLoop.serverClosed)
        && messages == old(messages) + [Toast(ConnectionLostText), StateEvent(Listening), StateEvent(Listening)]
    {
      if !failed.cancelled {
        ReadFailed(failed);
      }
    }

    /** One pass of AcceptThread.run's loop body for the accept result `o`:
        a socket accepted while LISTENING is handed to connected(); a socket
        accepted while NONE is closed together with the server socket and the
        loop quits; a null socket is ignored; an accept error breaks out of
        the loop. The loop never touches acceptThread, so a loop that quits
        stays referenced and is not restarted. A socket closed while NONE is
        never given a ConnectedThread or listed; it is returned as
        `rejected`. */
    method AcceptOnce(loop: AcceptLoop, o: AcceptOutcome) returns (quit: bool, rejected: Connection?, ghost added: seq<Connection>)
      requires Valid() && loop.running
      modifies this, loop
      ensures Valid()
      ensures quit == Exits(old(state), o) && loop.running == !quit
      ensures loop.serverClosed == (old(loop.serverClosed) || (quit && o.Accepted?))
      ensures (rejected != null) == (quit && o.Accepted?)
      ensures rejected != null ==>
        && fresh(rejected) && rejected.device == o.device && rejected.cancelled
        && rejected.sent == [] && rejected !in connections
      ensures state == old(state) && acceptLoop == old(acceptLoop)
      ensures connections == old(connections) + added && DevicesOf(added) == Admitted(old(state), o)
      ensures forall c :: c in added ==> fresh(c) && c.sent == []
      ensures messages == old(messages) + ConnectEvents(Admitted(old(state), o))
    {
      quit, rejected, added := false, null, [];
      match o {
        case AcceptFailed =>
          quit := true;
        case NoSocket =>
        case Accepted(d) =>
          match state {
            case Listening =>
              Connected(d);
              added := [connections[|connections| - 1]];
              assert ConnectEvents([d]) == [DeviceName(d.name), StateEvent(Listening)];
            case None =>
              quit := true;
              rejected := new Connection(d);
              rejected.Cancel();
              loop.CloseServer();
          }
      }
      if quit {
        loop.Exit();
      }
    }

    /** One pass of the accept loop as AcceptRun takes it: AcceptOnce,
        with the connections and messages added so far (`added`, for the
        devices `handed`, since the snapshot `conns0`/`msgs0`) extended by
        the pass's own. */
    method AcceptStep(loop: AcceptLoop, o: AcceptOutcome, ghost conns0: seq<Connection>, ghost msgs0: seq<Event>,
                      ghost added: seq<Connection>, ghost handed: seq<Device>)
      returns (quit: bool, rejected: Connection?, ghost added': seq<Connection>, ghost handed': seq<Device>)
      requires Valid() && loop.running
      requires connections == conns0 + added && DevicesOf(added) == handed
      requires messages == msgs0 + ConnectEvents(handed)
      modifies this, loop
      ensures Valid()
      ensures quit == Exits(old(state), o) && loop.running == !quit
      ensures loop.serverClosed == (old(loop.serverClosed) || (quit && o.Accepted?))
      ensures (rejected != null) == (quit && o.Accepted?)
      ensures rejected != null ==>
        && fresh(rejected) && rejected.device == o.device && rejected.cancelled
        && rejected.sent == [] && rejected !in connections
      ensures state == old(state) && acceptLoop == old(acceptLoop)
      ensures handed' == handed + Admitted(old(state), o)
      ensures |added'| >= |added| && added'[..|added|] == added
      ensures forall c :: c in added'[|added|..] ==> fresh(c) && c.sent == []
      ensures connections == conns0 + added' && DevicesOf(added') == handed'
      ensures messages == msgs0 + ConnectEvents(handed')
    {
      ghost var devs := Admitted(state, o);
      ghost var arrived;
      quit, rejected, arrived := AcceptOnce(loop, o);
      DevicesOfAppend(added, arrived);
      ConnectEventsAppend(handed, devs);
      AppendAssoc(conns0, added, arrived);
      AppendAssoc(msgs0, ConnectEvents(handed), ConnectEvents(devs));
      added', handed' := added + arrived, handed + devs;
    }

    /** AcceptThread.run over the script `outcomes` of accept() results: it
        does exactly what the run specification says, handing each device it
        admits to connected() in order, as the new connections `added`, and
        closing, as `rejected`, the socket it accepted while NONE, if any. When
        the script runs out before the loop exits, the loop is left blocked in
        accept(). */
    method AcceptRun(loop: AcceptLoop, outcomes: seq<AcceptOutcome>) returns (consumed: nat, rejected: Connection?, ghost added: seq<Connection>)
      requires Valid() && loop.running
      modifies this, loop
      ensures Valid()
      ensures consumed == Run(old(state), outcomes).consumed
      ensures loop.running == !Run(old(state), outcomes).ended
      ensures loop.serverClosed == (old(loop.serverClosed) || Run(old(state), outcomes).serverClosed)
      ensures (rejected != null) == Run(old(state), outcomes).serverClosed
      ensures rejected != null ==> rejected.cancelled
      ensures state == old(state) && acceptLoop == old(acceptLoop)
      ensures connections == old(connections) + added && DevicesOf(added) == Run(old(state), outcomes).handedOff
      ensures messages == old(messages) + ConnectEvents(Run(old(state), outcomes).handedOff)
    {
      var s := state;
      ghost var r := Run(s, outcomes);
      ghost var handed: seq<Device> := [];
      TracksStart(s, outcomes);
      consumed, rejected, added := 0, null, [];
      var quit := false;
      while consumed < |outcomes| && !quit
        invariant Tracks(s, outcomes, consumed, handed, quit, r)
        invariant Valid()
        invariant state == s && acceptLoop == old(acceptLoop)
        invariant loop.running == !quit
        invariant !quit ==> loop.serverClosed == old(loop.serverClosed)
        invariant quit ==> loop.serverClosed == (old(loop.serverClosed) || r.serverClosed)
        invariant (rejected != null) == (quit && r.serverClosed)
        invariant rejected != null ==> rejected.cancelled
        invariant connections == old(connections) + added && DevicesOf(added) == handed
        invariant messages == old(messages) + ConnectEvents(handed)
      {
        var o := outcomes[consumed];
        TracksStep(s, outcomes, consumed, handed, r);
        quit, rejected, added, handed := AcceptStep(loop, o, old(connections), old(messages), added, handed);
        consumed := consumed + 1;
      }
      TracksEnd(s, outcomes, consumed, handed, quit, r);
    }
  }
}
