# HostService: the host side of a Bluetooth party session

This project models `HostService`, the host-side connection manager of the
amplacenta Android app. The manager has three parts:

- a two-valued state, `NONE` or `LISTENING`;
- at most one accept loop (`AcceptThread`), which owns the listening server
  socket;
- an insertion-ordered list of live connections (`ConnectedThread`s). Each
  connection owns one accepted socket.

It reports to the UI by posting messages to an Android `Handler`.

The model is imperative, like the source.

- `HostServiceModel.HostService` is a class with the fields `state`,
  `acceptLoop`, `connections` and `messages`. `messages` is the Handler,
  modelled as an append-only log of `HostEvents.Event`s.
- Each connection is a `Connection` object. It has a `cancelled` flag, set by
  `cancel()`, and the list `sent` of buffers its output stream took.
- The accept loop is an `AcceptLoop` object. It records whether its loop is
  still running and whether its server socket was closed.
- Every blocking I/O call becomes a parameter: whether each write succeeded,
  what each `accept()` returned, and which connection's read threw.
- Threads are not modelled: every operation is one atomic step.

The files:

- `events.dfy` (module `HostEvents`): the state enum and its ordinal
  encoding; the Handler messages; the message lists that a broadcast and a
  series of hand-overs post.
- `accept_spec.dfy` (module `AcceptSpec`): `Run`, a pure specification of one
  run of `AcceptThread.run` over a script of `accept()` results, with its
  properties.
- `host_service.dfy` (module `HostServiceModel`): the classes and the
  operations. The accept loop `AcceptRun` is proved to do what `Run` says.
- `scenarios.dfy` (module `HostScenarios`): client code that drives the
  manager the way the UI, the accept loop and the connection threads do.
  Each method states what its sequence of calls leaves behind.

Three behaviours of the code are worth stating plainly, because a reader
might expect otherwise:

- **Accept errors leave the state alone.** An accept error only ends the
  loop (HostService.java:184-190). It changes no state and posts nothing
  (`AcceptSpec.AcceptFailureEndsRun`).
- **A dead accept loop is not re-armed by `start()`.** `start()` checks only
  that the `acceptThread` handle is null (HostService.java:85-88), and the
  accept loop never clears that handle. A loop that ended on an accept error
  stays referenced, so no `start()` replaces it until `stop()` is called
  (`HostScenarios.AcceptErrorThenStart`).
- **A read failure resets every peer.** The failing connection calls
  `start()` (HostService.java:267-271), which cancels and drops every
  connection, not just the failing one
  (`HostServiceModel.HostService.ReadFailed`).

## Model

| member | source | states |
|---|---|---|
| HostEvents.Ordinal | Application/src/main/java/com/example/android/amplacenta/HostService.java:36-39 | a state's ordinal is its position in the two-constant enum, below 2 |
| HostEvents.OrdinalRoundTrip | Application/src/main/java/com/example/android/amplacenta/HostFragment.java:67 | the UI's `values()[arg1]` decoding gives back the state setState sent, and distinct states send distinct ordinals |
| HostEvents.StateEvent | Application/src/main/java/com/example/android/amplacenta/HostService.java:59-64 | setState posts a state change whose ordinal decodes to the state set |
| HostEvents.WriteEvents | Application/src/main/java/com/example/android/amplacenta/HostService.java:138-142 | a broadcast posts one write message carrying `out` per successful write, and nothing else |
| HostEvents.WriteEventsIsolated | Application/src/main/java/com/example/android/amplacenta/HostService.java:281-290 | when every write succeeds, one write message is posted per connection; a failing write removes exactly its own message |
| HostEvents.ConnectEvents | Application/src/main/java/com/example/android/amplacenta/HostService.java:116-130 | each hand-over posts two messages |
| HostEvents.ConnectEventsAppend | Application/src/main/java/com/example/android/amplacenta/HostService.java:116-130 | the messages of successive hand-overs are posted in hand-over order |
| HostEvents.ConnectEventsAt | Application/src/main/java/com/example/android/amplacenta/HostService.java:122-129 | each hand-over posts the device's name, then a LISTENING state change |
| AcceptSpec.Admitted | Application/src/main/java/com/example/android/amplacenta/HostService.java:193-198 | one pass hands at most one device to connected() |
| AcceptSpec.Exits | Application/src/main/java/com/example/android/amplacenta/HostService.java:188-213 | a pass leaves the loop on an accept error or on a socket accepted while NONE; such a pass hands nothing to connected(), and a null socket never ends the loop |
| AcceptSpec.Run | Application/src/main/java/com/example/android/amplacenta/HostService.java:179-216 | a run takes at most the whole script and hands off at most one device per accepted socket. It ends exactly at the first accept error, or at the first socket accepted while NONE. A script that runs out leaves it blocked. Only a NONE run closes its own server socket |
| AcceptSpec.TracksStart | Application/src/main/java/com/example/android/amplacenta/HostService.java:179-181 | before the first pass nothing is taken or handed off, and the whole run is still ahead |
| AcceptSpec.TracksStep | Application/src/main/java/com/example/android/amplacenta/HostService.java:181-214 | one pass of the loop body hands off what Admitted says and either leaves the loop, with the server socket closed exactly on an accepted socket, or leaves the rest of the run to the remaining results |
| AcceptSpec.TracksEnd | Application/src/main/java/com/example/android/amplacenta/HostService.java:181-216 | when the loop leaves or the results run out, what was taken and handed off is the whole run |
| AcceptSpec.AcceptedDevices | Application/src/main/java/com/example/android/amplacenta/HostService.java:187-193 | the devices of the accepted sockets, at most one per result |
| AcceptSpec.RunIgnoresAfterExit | Application/src/main/java/com/example/android/amplacenta/HostService.java:188-189 | once the loop has exited, later accept results are never looked at |
| AcceptSpec.AcceptFailureEndsRun | Application/src/main/java/com/example/android/amplacenta/HostService.java:184-190 | an accept error ends the run at that point, with no further hand-over and no server-socket close of its own |
| AcceptSpec.ListeningHandsOffEveryAccepted | Application/src/main/java/com/example/android/amplacenta/HostService.java:195-198 | while LISTENING, every accepted socket up to the exit goes to connected(), in order, and the server socket is never closed |
| AcceptSpec.NoneHandsOffNothing | Application/src/main/java/com/example/android/amplacenta/HostService.java:199-207 | while NONE, nothing goes to connected(). The server socket is closed exactly when the run ends on an accepted socket, and every earlier result was a null socket |
| HostServiceModel.Connection.Cancel | Application/src/main/java/com/example/android/amplacenta/HostService.java:292-297 | cancel() closes the socket and delivers nothing |
| HostServiceModel.Connection.Send | Application/src/main/java/com/example/android/amplacenta/HostService.java:282-283 | the output stream takes the buffer exactly when the write succeeds |
| HostServiceModel.Connection.constructor | Application/src/main/java/com/example/android/amplacenta/HostService.java:236-252 | a new ConnectedThread is bound to its device, not cancelled, with nothing written |
| HostServiceModel.AcceptLoop.constructor | Application/src/main/java/com/example/android/amplacenta/HostService.java:167-177 | a new accept loop has an open server socket and is running (start() starts it at once, lines 86-87) |
| HostServiceModel.AcceptLoop.CloseServer | Application/src/main/java/com/example/android/amplacenta/HostService.java:218-223 | the accept loop's cancel() closes the server socket and nothing else |
| HostServiceModel.AcceptLoop.Exit | Application/src/main/java/com/example/android/amplacenta/HostService.java:212-213 | leaving the loop stops it and leaves the server socket as it was |
| HostServiceModel.HostService.constructor | Application/src/main/java/com/example/android/amplacenta/HostService.java:47-52 | a new session is NONE, with no accept loop, no connections and no messages |
| HostServiceModel.HostService.SetState | Application/src/main/java/com/example/android/amplacenta/HostService.java:59-64 | records the state and posts exactly its state change |
| HostServiceModel.HostService.GetState | Application/src/main/java/com/example/android/amplacenta/HostService.java:69-71 | returns the current state |
| HostServiceModel.HostService.NumConnections | Application/src/main/java/com/example/android/amplacenta/HostService.java:300-302 | returns the number of listed connections |
| HostServiceModel.HostService.CancelConnections | Application/src/main/java/com/example/android/amplacenta/HostService.java:79-82 | every previously listed connection is cancelled with its output untouched, and the list is empty |
| HostServiceModel.HostService.Start | Application/src/main/java/com/example/android/amplacenta/HostService.java:77-91 | LISTENING with no connections and every earlier one cancelled. The existing accept loop is kept if there is one; otherwise exactly one new, running one is created. One state change is posted |
| HostServiceModel.HostService.Stop | Application/src/main/java/com/example/android/amplacenta/HostService.java:96-108 | NONE with no connections, every earlier one cancelled, the old accept loop's server socket closed and the handle null; one state change is posted |
| HostServiceModel.HostService.Connected | Application/src/main/java/com/example/android/amplacenta/HostService.java:116-130 | exactly one new live connection to `d` is added at the end, with earlier entries unchanged. The device name is posted, then LISTENING |
| HostServiceModel.HostService.WriteTo | Application/src/main/java/com/example/android/amplacenta/HostService.java:281-290 | a successful write delivers the buffer and posts it; a failed one is swallowed |
| HostServiceModel.HostService.Write | Application/src/main/java/com/example/android/amplacenta/HostService.java:138-142 | every listed connection's stream gets `out` exactly once if its write succeeds, and nothing otherwise. A failed write does not stop the others. The messages are WriteEvents |
| HostServiceModel.HostService.ConnectionLost | Application/src/main/java/com/example/android/amplacenta/HostService.java:147-156 | posts the loss toast, then LISTENING |
| HostServiceModel.HostService.ReadFailed | Application/src/main/java/com/example/android/amplacenta/HostService.java:267-271 | a read failure on any connection cancels and drops all of them and leaves the state LISTENING. It posts the toast and two LISTENING changes, and re-arms a loop only if none is referenced |
| HostServiceModel.HostService.ReadFailedCorrected | Application/src/main/java/com/example/android/amplacenta/HostService.java:267-271 | a read failure on a connection the host itself cancelled changes nothing; any other is handled as ReadFailed |
| HostServiceModel.HostService.AcceptOnce | Application/src/main/java/com/example/android/amplacenta/HostService.java:181-214 | one loop pass exits exactly as Exits says and adds the admitted device as one new connection with its messages. A socket accepted while NONE is returned closed, for that device, never listed, and the server socket is closed with it |
| HostServiceModel.HostService.AcceptStep | Application/src/main/java/com/example/android/amplacenta/HostService.java:181-214 | one pass as AcceptOnce states it: the same exit, hand-off, close and message effects, the pass's new connection and closed socket fresh with nothing written, all added in order to those of the passes before it |
| HostServiceModel.HostService.AcceptRun | Application/src/main/java/com/example/android/amplacenta/HostService.java:179-216 | the loop consumes, hands off, exits and closes exactly as Run says. The new connections carry Run's devices in order, and the messages are their hand-over messages. A closed accepted socket is returned exactly when Run closes the server socket |
| HostScenarios.Armings | Application/src/main/java/com/example/android/amplacenta/HostService.java:85-88 | at most one accept loop is created per call |
| HostScenarios.ArmingsIdempotent | Application/src/main/java/com/example/android/amplacenta/HostService.java:85-88 | start() twice or stop() twice creates no second accept loop; start() after stop() creates exactly one |
| HostScenarios.Lifecycle | Application/src/main/java/com/example/android/amplacenta/HostService.java:77-108 | after any sequence of start()/stop() calls, the state is LISTENING and an accept loop is referenced exactly when the last call was start(). No connection is left, and exactly Armings(calls) loops were created |
| HostScenarios.RestartWithPeer | Application/src/main/java/com/example/android/amplacenta/HostService.java:77-91 | start(), a peer connects, start(): zero connections, the peer cancelled, still the first accept loop |
| HostScenarios.BroadcastThenLoss | Application/src/main/java/com/example/android/amplacenta/HostService.java:116-156 | a peer connects, is sent a message and then its read fails. Its stream holds exactly that message, no connection is left, the state is LISTENING, and the UI got exactly the expected messages in order |
| HostScenarios.AcceptErrorThenStart | Application/src/main/java/com/example/android/amplacenta/HostService.java:184-190 | after an accept error, start() keeps the dead loop: LISTENING while no accept loop runs |
| HostScenarios.StopBetweenAccepts | Application/src/main/java/com/example/android/amplacenta/HostService.java:199-207 | stop() between two passes: the next accepted socket is closed unadmitted with the server socket, the loop quits, and the host stays NONE with no connection |
| HostScenarios.StopThenOwnCancelAsWritten | Application/src/main/java/com/example/android/amplacenta/HostService.java:96-108 | with a live peer, stop() followed by that peer's read failure leaves the host LISTENING with an accept loop |
| HostScenarios.StopThenOwnCancelCorrected | Application/src/main/java/com/example/android/amplacenta/HostService.java:267-271 | with the corrected recovery, the same sequence leaves the host NONE with no accept loop and no connection |
| HostScenarios.RestartThenOwnCancelAsWritten | Application/src/main/java/com/example/android/amplacenta/HostService.java:267-271 | start(), peer a, start(), peer b, then a's read fails: as written, b is cancelled and no connection is left |
| HostScenarios.RestartThenOwnCancelCorrected | Application/src/main/java/com/example/android/amplacenta/HostService.java:267-271 | with the corrected recovery, the same sequence keeps b connected and the host LISTENING |

## Left out

- Threads and `synchronized` are not modelled. Every operation is one atomic step, so the race between the unsynchronized `write` loop and `start()`/`stop()` is not represented.
- The success branch of `ConnectedThread.run`'s read loop, which posts MESSAGE_READ with the whole 1024-byte buffer and a count, is left out: it is I/O. Only the read-failure branch is modelled.
- The loop condition `state == LISTENING` of `ConnectedThread.run` is not modelled: a read that throws is modelled as the failure branch, whatever the state.
- The scripts of `accept()` results are not constrained to what a closed server socket allows: after a close, a real script has at most one more accepted socket before an accept error, while the model accepts any script.
- Bluetooth sockets, streams, `BluetoothAdapter`, `NAME_INSECURE` and `HOST_UUID` are left out. They are foreign platform calls, replaced by parameters that say what each call produced.
- The `RuntimeException`s for a failing `listen()` (HostService.java:171-175) or a failing close while NONE (HostService.java:203-205) are left out: the model assumes both succeed.
- A failed write is modelled as delivering nothing; a partial write is not represented.
- Opening a connection's streams can fail silently (HostService.java:243-248). The model assumes they open.
- HostFragment.java is not part of this model, beyond its decoding of state ordinals (line 67) and the lifecycle calls the scenarios imitate. That includes its send guard.
- The SelectLayoutActivity.java files are not part of this model: they only wire screen navigation.
- Constants.java is not part of this model. Messages are told apart by constructor, not by their integer codes.
- AcceptRun: its contract does not say that each new connection is freshly created with an empty output stream. AcceptOnce and Connected state that for every pass; carrying it through the loop was too costly to prove.
- AcceptRun: its contract does not say which device the closed socket it returns came from, nor that it is new with nothing written. AcceptOnce states both for the pass that closes it, and NoneHandsOffNothing states that such a run ends on an accepted socket; carrying the device through the loop was too costly to prove.

## Findings

| source | as written | input that shows it | evidently intended | confidence | as-written member | corrected member |
|---|---|---|---|---|---|---|
| Application/src/main/java/com/example/android/amplacenta/HostService.java:267-271 | stop() cancels each connection's socket, which makes that connection's blocked read throw. The catch branch then calls connectionLost() and start(), so the host goes back to LISTENING with a new accept loop after onDestroy's stop() | start(), one peer connects, stop(), then that peer's read fails | a read that fails because the host cancelled the connection ends the thread quietly, and the host stays NONE | not executed | HostScenarios.StopThenOwnCancelAsWritten | HostScenarios.StopThenOwnCancelCorrected |
| Application/src/main/java/com/example/android/amplacenta/HostService.java:267-271 | start() also cancels every connection, so a peer dropped by a restart has its blocked read throw after a new peer joined. The catch branch calls start() again, which cancels the new peer too | start(), peer a connects, start(), peer b connects, then a's read fails | the dropped peer's thread ends quietly, and b stays connected with the host LISTENING | not executed | HostScenarios.RestartThenOwnCancelAsWritten | HostScenarios.RestartThenOwnCancelCorrected |
