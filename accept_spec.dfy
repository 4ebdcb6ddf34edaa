/** What one stretch of the host's accept loop (AcceptThread.run) does, given
    the script of results its blocking accept() calls produce. The loop reads
    the host's state at every accepted socket. The model takes a stretch of
    passes as one atomic step during which no other thread runs, so the state
    is fixed for the stretch and the run is a function of that state and the
    script. In the program, stop() on the UI thread can set NONE between two
    passes, which is the only way the NONE branch is reached; the model
    expresses that by calling the accept loop again after Stop(). */
module AcceptSpec {
  import opened HostEvents

  /** What one blocking accept() on the server socket produced. Scripts are
      free parameters: once the server socket is closed (by stop() or by the
      loop itself), every later accept() throws, so a real script holds at
      most one more Accepted, one already under way, before AcceptFailed. */
  datatype AcceptOutcome =
    | Accepted(device: Device)   // a socket connected to this remote device
    | NoSocket                   // accept() returned null
    | AcceptFailed               // accept() threw IOException, e.g. because the server socket was closed

  /** The effect of a run: how many outcomes it took, the devices it handed to
      connected() in order, whether the loop exited, and whether it closed its
      server socket on the way out. */
  datatype RunOutcome = RunOutcome(consumed: nat, handedOff: seq<Device>, ended: bool, serverClosed: bool)

  /** Whether the loop body leaves the loop on outcome `o` in state `s`: an
      accept error breaks out, and a socket accepted while NONE sets `quit`. */
  predicate Exits(s: HostState, o: AcceptOutcome)
    ensures Exits(s, o) ==> Admitted(s, o) == []
    ensures o.NoSocket? ==> !Exits(s, o)
  {
    o.AcceptFailed? || (o.Accepted? && s == None)
  }

  /** The devices the loop body hands to connected() for outcome `o` in
      state `s`: the accepted socket's device while LISTENING, else none. */
  function Admitted(s: HostState, o: AcceptOutcome): (ds: seq<Device>)
    ensures |ds| <= 1
  {
    if o.Accepted? && s == Listening then [o.device] else []
  }

  /** The run of the accept loop over `os` while the host is in state `s`; a
      script that ends without an exit leaves the loop blocked in accept(). */
  function Run(s: HostState, os: seq<AcceptOutcome>): (r: RunOutcome)
    ensures |r.handedOff| <= r.consumed <= |os|
    ensures r.ended <==> r.consumed > 0 && Exits(s, os[r.consumed - 1])
    ensures !r.ended ==> r.consumed == |os|
    ensures r.serverClosed ==> r.ended && s == None
  {
    if os == [] then RunOutcome(0, [], false, false)
    else if Exits(s, os[0]) then RunOutcome(1, [], true, os[0].Accepted?)
    else
      var rest := Run(s, os[1..]);
      RunOutcome(rest.consumed + 1, Admitted(s, os[0]) + rest.handedOff, rest.ended, rest.serverClosed)
  }

  /** The run over a whole script, given that `consumed` outcomes were already
      taken, handing off `handed`, without exiting, and `rest` is the run over
      the remainder. */
  function Resume(consumed: nat, handed: seq<Device>, rest: RunOutcome): RunOutcome
  {
    RunOutcome(consumed + rest.consumed, handed + rest.handedOff, rest.ended, rest.serverClosed)
  }

  /** Taking one more non-exiting outcome moves it from the remainder into
      what was already taken. */
  lemma ResumeStep(s: HostState, consumed: nat, handed: seq<Device>, os: seq<AcceptOutcome>)
    requires os != [] && !Exits(s, os[0])
    ensures Resume(consumed, handed, Run(s, os))
         == Resume(consumed + 1, handed + Admitted(s, os[0]), Run(s, os[1..]))
  {
    var d := Admitted(s, os[0]);
    assert handed + (d + Run(s, os[1..]).handedOff) == (handed + d) + Run(s, os[1..]).handedOff;
  }

  /** What a loop over `os` knows after `consumed` passes that handed off
      `handed`, given that the whole run is `r`: while it has not quit, the
      run is what was taken followed by the run over the remainder; once it
      has quit, the run has ended there. */
  predicate Tracks(s: HostState, os: seq<AcceptOutcome>, consumed: nat, handed: seq<Device>, quit: bool, r: RunOutcome)
  {
    && consumed <= |os|
    && (!quit ==> r == Resume(consumed, handed, Run(s, os[consumed..])))
    && (quit ==> r == RunOutcome(consumed, handed, true, r.serverClosed))
  }

  /** Before the first pass nothing is taken and the run is the whole run. */
  lemma TracksStart(s: HostState, os: seq<AcceptOutcome>)
    ensures Tracks(s, os, 0, [], false, Run(s, os))
  {
    assert os[0..] == os;
  }

  /** When the loop stops, by quitting or because the script ran out, what it
      took is the whole run. */
  lemma TracksEnd(s: HostState, os: seq<AcceptOutcome>, consumed: nat, handed: seq<Device>, quit: bool, r: RunOutcome)
    requires Tracks(s, os, consumed, handed, quit, r) && (quit || consumed == |os|)
    ensures r.consumed == consumed && r.handedOff == handed && r.ended == quit
  {
    if !quit {
      assert os[consumed..] == [];
      assert handed + [] == handed;
    }
  }

  /** One pass of the loop body: an exiting outcome completes the run (closing
      the server socket exactly when the outcome was an accepted socket), any
      other one is moved into what was already taken. */
  lemma TracksStep(s: HostState, os: seq<AcceptOutcome>, consumed: nat, handed: seq<Device>, r: RunOutcome)
    requires Tracks(s, os, consumed, handed, false, r) && consumed < |os|
    ensures Tracks(s, os, consumed + 1, handed + Admitted(s, os[consumed]), Exits(s, os[consumed]), r)
    ensures Exits(s, os[consumed]) ==> r.serverClosed == os[consumed].Accepted?
  {
    var here := os[consumed..];
    assert here[0] == os[consumed] && here[1..] == os[consumed + 1..];
    if Exits(s, os[consumed]) {
      assert handed + [] == handed;
    } else {
      ResumeStep(s, consumed, handed, here);
    }
  }

  /** The devices of the accepted sockets in `os`, in order. */
  function AcceptedDevices(os: seq<AcceptOutcome>): (ds: seq<Device>)
    ensures |ds| <= |os|
  {
    if os == [] then []
    else (if os[0].Accepted? then [os[0].device] else []) + AcceptedDevices(os[1..])
  }

  /** Once the loop has exited, later accept results are never looked at. */
  lemma {:induction false} RunIgnoresAfterExit(s: HostState, a: seq<AcceptOutcome>, b: seq<AcceptOutcome>)
    requires Run(s, a).ended
    ensures Run(s, a + b) == Run(s, a)
  {
    assert a != [];
    assert (a + b)[1..] == a[1..] + b;
    if !Exits(s, a[0]) {
      RunIgnoresAfterExit(s, a[1..], b);
    }
  }

  /** An accept error ends the loop: whatever came before, the run exits at the
      error, hands off nothing more, closes no server socket of its own, and
      never looks at what follows. */
  lemma {:induction false} AcceptFailureEndsRun(s: HostState, a: seq<AcceptOutcome>, b: seq<AcceptOutcome>)
    ensures Run(s, a + [AcceptFailed] + b).ended
    ensures Run(s, a + [AcceptFailed] + b).handedOff == Run(s, a).handedOff
    ensures Run(s, a + [AcceptFailed] + b).serverClosed == Run(s, a).serverClosed
    ensures !Run(s, a).ended ==> Run(s, a + [AcceptFailed] + b).consumed == |a| + 1
  {
    if a == [] {
      assert a + [AcceptFailed] + b == [AcceptFailed] + b;
    } else {
      assert (a + [AcceptFailed] + b)[1..] == a[1..] + [AcceptFailed] + b;
      AcceptFailureEndsRun(s, a[1..], b);
    }
  }

  /** While LISTENING, every accepted socket up to the first accept error is
      handed to connected(), in order, and the server socket is never closed. */
  lemma {:induction false} ListeningHandsOffEveryAccepted(os: seq<AcceptOutcome>)
    ensures !Run(Listening, os).serverClosed
    ensures Run(Listening, os).handedOff == AcceptedDevices(os[..Run(Listening, os).consumed])
  {
    if os != [] {
      var r := Run(Listening, os);
      ListeningHandsOffEveryAccepted(os[1..]);
      if !os[0].AcceptFailed? {
        assert os[..r.consumed][1..] == os[1..][..r.consumed - 1];
      }
    }
  }

  /** While NONE, no socket is ever handed to connected(): the first accepted
      socket makes the loop close it together with the server socket and quit,
      and an accept error before that quits without closing anything. */
  lemma {:induction false} NoneHandsOffNothing(os: seq<AcceptOutcome>)
    ensures Run(None, os).handedOff == []
    ensures Run(None, os).serverClosed <==> Run(None, os).ended && os[Run(None, os).consumed - 1].Accepted?
    ensures forall k :: 0 <= k < Run(None, os).consumed - 1 ==> os[k].NoSocket?
  {
    if os != [] && os[0].NoSocket? {
      NoneHandsOffNothing(os[1..]);
    }
  }
}
