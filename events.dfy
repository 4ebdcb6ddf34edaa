/** Values shared by the host-side connection manager: its two-valued state,
    the remote devices it talks to, and the messages it posts to the UI's
    Handler (modelled as an append-only log of events). */
module HostEvents {

  /** A Java `byte`. */
  type Byte = b: int | -128 <= b < 128

  /** HostService.HostState, in declaration order. */
  datatype HostState = None | Listening

  /** `state.ordinal()`: the position of the constant in the enum. */
  function Ordinal(s: HostState): (n: nat)
    ensures n < 2
  {
    match s
    case None => 0
    case Listening => 1
  }

  /** `HostState.values()[n]`, which the UI uses to decode a state-change message;
      an ordinal outside the enum has no state. */
  function StateOf(n: int): (s: HostState)
    requires 0 <= n < 2
  {
    if n == 0 then None else Listening
  }

  /** Decoding the ordinal that setState sends gives back the state that was set,
      and distinct states are sent as distinct ordinals. */
  lemma OrdinalRoundTrip(s: HostState, t: HostState)
    ensures StateOf(Ordinal(s)) == s
    ensures Ordinal(s) == Ordinal(t) ==> s == t
  {
  }

  /** A remote Bluetooth device, known to the host only by its name. */
  datatype Device = Device(name: string)

  /** The messages HostService posts to its Handler. */
  datatype Event =
    | StateChange(ordinal: nat)     // MESSAGE_STATE_CHANGE, arg1 = the new state's ordinal
    | DeviceName(name: string)      // MESSAGE_DEVICE_NAME, bundle DEVICE_NAME = device.getName()
    | Written(buffer: seq<Byte>)    // MESSAGE_WRITE, obj = the buffer just written
    | Toast(text: string)           // MESSAGE_TOAST, bundle TOAST = the text

  /** The text connectionLost() toasts. */
  const ConnectionLostText: string := "Device connection was lost"

  /** The message setState(s) posts. */
  function StateEvent(s: HostState): (e: Event)
    ensures e.StateChange? && e.ordinal < 2 && StateOf(e.ordinal) == s
  {
    StateChange(Ordinal(s))
  }

  /** Number of `true` entries. */
  function CountTrue(oks: seq<bool>): (n: nat)
    ensures n <= |oks|
  {
    if oks == [] then 0
    else CountTrue(oks[..|oks| - 1]) + (if oks[|oks| - 1] then 1 else 0)
  }

  /** The messages a broadcast of `out` posts when the i-th connection's write
      succeeds exactly when oks[i] holds: one MESSAGE_WRITE carrying `out` per
      successful write, in list order, and nothing for a failed one. */
  function WriteEvents(out: seq<Byte>, oks: seq<bool>): (es: seq<Event>)
    ensures |es| == CountTrue(oks)
    ensures forall k :: 0 <= k < |es| ==> es[k] == Written(out)
  {
    if oks == [] then []
    else WriteEvents(out, oks[..|oks| - 1]) + (if oks[|oks| - 1] then [Written(out)] else [])
  }

  /** Peer isolation: when every write succeeds, one write message is posted per
      connection; a failing connection removes exactly its own message and no other. */
  lemma {:induction false} WriteEventsIsolated(out: seq<Byte>, oks: seq<bool>, j: nat)
    requires j < |oks|
    ensures (forall k :: 0 <= k < |oks| ==> oks[k]) ==> |WriteEvents(out, oks)| == |oks|
    ensures |WriteEvents(out, oks[j := false])| + (if oks[j] then 1 else 0) == |WriteEvents(out, oks)|
  {
    CountTrueAll(oks);
    CountTrueUpdate(oks, j);
  }

  lemma {:induction false} CountTrueAll(oks: seq<bool>)
    ensures (forall k :: 0 <= k < |oks| ==> oks[k]) ==> CountTrue(oks) == |oks|
  {
    if oks != [] {
      CountTrueAll(oks[..|oks| - 1]);
    }
  }

  lemma {:induction false} CountTrueUpdate(oks: seq<bool>, j: nat)
    requires j < |oks|
    ensures CountTrue(oks[j := false]) + (if oks[j] then 1 else 0) == CountTrue(oks)
  {
    var n := |oks|;
    var upd := oks[j := false];
    if j == n - 1 {
      assert upd[..n - 1] == oks[..n - 1];
    } else {
      assert upd[..n - 1] == oks[..n - 1][j := false];
      CountTrueUpdate(oks[..n - 1], j);
    }
  }

  /** The messages connected(socket, d) posts for each device handed over in turn:
      the device's name, then the LISTENING state change. */
  function ConnectEvents(ds: seq<Device>): (es: seq<Event>)
    ensures |es| == 2 * |ds|
  {
    if ds == [] then []
    else ConnectEvents(ds[..|ds| - 1]) + [DeviceName(ds[|ds| - 1].name), StateEvent(Listening)]
  }

  /** The messages for two batches of hand-overs are those of the first batch
      followed by those of the second. */
  lemma {:induction false} ConnectEventsAppend(a: seq<Device>, b: seq<Device>)
    ensures ConnectEvents(a + b) == ConnectEvents(a) + ConnectEvents(b)
  {
    if b == [] {
      assert a + b == a;
    } else {
      var n := |b|;
      assert (a + b)[..|a + b| - 1] == a + b[..n - 1];
      ConnectEventsAppend(a, b[..n - 1]);
    }
  }

  /** Each handed-over device yields its name followed by a LISTENING state
      change, in hand-over order. */
  lemma {:induction false} ConnectEventsAt(ds: seq<Device>, k: nat)
    requires k < |ds|
    ensures ConnectEvents(ds)[2 * k] == DeviceName(ds[k].name)
    ensures ConnectEvents(ds)[2 * k + 1] == StateEvent(Listening)
  {
    var n := |ds|;
    if k < n - 1 {
      ConnectEventsAt(ds[..n - 1], k);
    }
  }
}
