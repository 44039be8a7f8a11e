# Verified model of a remote shell session

The program runs a command on another machine. A client and a server process share one connection, over which
they multiplex the command's standard streams, window sizes, the exit status and any forwarded TCP connections.
This project models that protocol in Dafny and proves what its users rely on.

Layers, from one stream to the whole session:

- `Protocol`, `Endpoints`: messages, constants, and the source and sink tasks as machines whose states are their
  await points. The runtime is single-threaded (`src/main.rs:41`), so a step is one task running from one await to
  the next.
- `StreamProtocol`: one source, one sink, a channel in either direction, and the `SinkClosed` that the server's
  main task injects when the child exits. One inductive invariant rules out the panic, bounds what is in flight and
  relates the bytes written to the bytes read.
- `Session`: both processes without port forwarding: three streams, two outbound queues (128), sender loops, the
  connection, receiver loops, channels of capacity one, both main tasks, the stored notify permit, the exit-status
  channel and the window-change task. With or without a pseudo-terminal, for any capacity of the connection and any
  schedule.
- `Multiplexing`, `SessionInvariant`, `Guarantees`: every session run, seen from one stream, is a run of the
  two-party protocol; the session invariant; and what it means: delivery, routing, the `Finished` handshake.
- `Histories`: what can be said of a whole session run from its events alone: bytes read and written, the child's
  status, window sizes. Such statements are about the states a run goes through (`Traces`); every run has them
  (`Session.RunHasTrace`, `StreamProtocol.RunHasTrace`).
- `Progress`, `Termination`, `Bounds`: no deadlock after the child's exit; a measure that only inputs (reads and
  window-change signals) can raise; and exactly when the length of all runs from a state is bounded.
- `FailingTasks`, `ServerFailure`, `ClientFailure`: either process from the moment its connection fails in any
  reachable session state; what ends then, and what a status that the client still returns is worth.
- `Forwarding`, `ForwardedStreams`: the connect handshake of any number of ports and connections, and the two streams
  of every established connection, which run the two-party protocol as the stdio streams do.
- `SharedSession`: a session among any other traffic on the same queues, connection and receiver loops; without that
  traffic every run of it is a run of `Session`.
- `Framing`, `SenderTask`: messages as a byte stream, and senders that fail once and then drain.
- `SourceTask`, `SinkTask`, `RecvRouter`, `ReceiverTask`, `Serve`, `ForwardingTasks`, `WindowTask`: the tasks as the
  program writes them, loops over mutable state. `inputs` and `arrivals` are what the awaits return; a task is left at
  the first await that has nothing yet. The source, sink, listener, connect and window-change tasks, the set-up and the
  end of the server's main task are proved to do what the machines above do (`SourceTask.SessionSourceSends`,
  `SinkTask.SessionSinkDoes`, `ReceiverTask.ExitAsSession` and `ReceiverTask.FinishedAsSession` are the links between
  the two). The router and the receiver loops are
  proved against what each task is fed; `ReceiverTask` also proves, message by message, that a router does what a
  session's receiver loop does.

Failures that are proved not to happen are not ruled out by definition: `Session.LossExactly`,
`Forwarding.AssertsExactly` and `Forwarding.FaultsExactly` spell out for any state when a task finds its channel gone,
when a router's assertion fires, and when a receiver loop finds no entry.

Points where the code and what one would expect of it differ:

- The client registers a forwarded connection's source and sink when its listener task next runs after the
  response (`src/stream/listener.rs:73-85`), while its receiver loop may already hold the server's first data for
  that connection; then the receiver loop ends with an error. `Forwarding.EarlyDataBreaksClient` is such a run, and
  `Forwarding.EarlyDataExactly` says exactly in which states it happens.
- The child's exit alone does not bound what is still to happen (`Bounds.ExitAloneBoundsNothing`): until stdin's
  `SinkClosed` is sent, the client can read stdin any number of times, and until the window-change task ends, signals
  can come. `Bounds.BoundExactly` says for every reachable state whether a bound exists. The model lets other tasks run
  at every await, also where the main task is about to send. That send always finds room (`Bounds.MainNeverWaits`), and
  if the main task does not yield there, runs are bounded from the exit on (`Bounds.PromptRunIsBounded`).
- If the child has closed its outputs but runs on, and the client's stdin has ended, the client says `Finished` and the
  server's receiver loop ends (`src/server/execute/receiver.rs:95`) while `serve` waits for the child
  (`src/server/execute/mod.rs:224`). When the connection fails then, nobody notices: nothing is shut down and the child
  is not killed. `ServerFailure.NobodyNotices` is such a session; `ServerFailure.EndsExactly` says that a failure ends
  the server in every reachable state but these.
- The client may return the child's status although it has not written all output, with no pipe broken: `Exit` does not
  wait for the outputs (`src/server/execute/mod.rs:238-242`), and a failure after it was taken is not reported
  (`src/execute/receiver.rs:81-90`). `ClientFailure.SuccessWithoutTheOutput` is such a run, and
  `ClientFailure.SuccessIsWholeExactly` says exactly when a returned status still means the whole output.
- `RecvRouter::shutdown` leaves the listener map alone and tells connecters nothing (`src/stream/recv_router.rs:45-69`).

`dafny verify dfyconfig.toml` checks the project.

## Model

| member | source | states |
|---|---|---|
| StreamProtocol.StepKeepsInv | src/stream/source.rs:73-112 | Every step of the source, the sink, the injection, or the dropping of a late reply keeps the two-party invariant over both tasks and both channels. |
| StreamProtocol.NeverPanics | src/stream/source.rs:101-107 | In no run does an `Ack` reach an idle source, although a sink may send `Ack` and `SinkClosed` for one `Data` and another `SinkClosed` may be injected anywhere. |
| StreamProtocol.PrefixAndLag | src/stream/sink.rs:70-92 | What was written is always a prefix of what was read, at most one packet behind while the sink is open, and all of it once an unclosed sink stops. |
| StreamProtocol.InFlightBound | src/stream/source.rs:89-112 | Undelivered source messages are nothing, `Data`, `SourceClosed`, or `Data` then `SourceClosed`; a sink emits `SinkClosed` at most twice; replies under way number at most three and the injected one. |
| StreamProtocol.AtMostOneLateData | src/server/execute/mod.rs:238-241 | In every run from the start, of the events after an injected `SinkClosed` at most one is the sending of a `Data`: told from the events and the states they lead through, without any counter. |
| StreamProtocol.SendingSends | src/stream/source.rs:89-92 | Such an event puts one `Data` of 1 to 4096 bytes on the way to the sink; the injection and the sink's own sending put a `SinkClosed` on the way back. |
| StreamProtocol.AtMostTwoClosed | src/stream/sink.rs:70-91 | In every run at most two events are a sink's sending of a `SinkClosed`. |
| StreamProtocol.WritesWhatWasRead | src/stream/sink.rs:70-92 | In every run, what the writer accepted, event by event, is a prefix of what the reads returned; without an event in which the pipe breaks it is at most one packet behind, and all of it once the sink stops. |
| StreamProtocol.StuckWriteHoldsAtMostOne | src/stream/sink.rs:48 | A sink inside `write_all` has at most one undelivered message, so a channel of capacity one suffices. |
| StreamProtocol.ClosedIsSticky | src/stream/sink.rs:87-91 | Once a sink met a broken pipe no step writes anything, and it answers a further `Data` with `SinkClosed`. |
| Multiplexing.StepProjects | src/stream/recv_router.rs:71-104 | One step of the whole session is at most one step of each stream's two-party protocol on the projected state. |
| SessionInvariant.RunProjects | src/server/execute/sender.rs:62-71 | Multiplexing is transparent: what a stream sees of any session run is a run of the two-party protocol between the projections of its first and last state. |
| SessionInvariant.InitHasInv | src/server/execute/mod.rs:155-221 | The state both `serve` functions set up satisfies the session invariant, with and without a pseudo-terminal. |
| SessionInvariant.NeverCrashes | src/execute/receiver.rs:70-78 | In states of the invariant handling a message never makes a receiver loop leave through `?`: its entry exists, its sink is alive, `Exit` is the first. |
| SessionInvariant.StepKeepsInv | src/execute/mod.rs:279-285 | Every step of every task keeps the session invariant: streams, channel bounds, message types, stages of both loops, status, joins. |
| Guarantees.EndToEnd | src/execute/mod.rs:279-287 | When the client's `serve` returns, its status is the one the server's `wait` returned, and each output sink wrote exactly the bytes the server's source read, or a prefix of them if that sink's pipe broke. |
| Guarantees.AlwaysPrefix | src/protocol.rs:189 | In every reachable state each stream's output is a prefix of its input and, while its sink is open, at most MAX_STREAM_PACKET_SIZE bytes behind. |
| Guarantees.NothingFails | src/stream/source.rs:94-107 | In every reachable state no source has panicked, no receiver loop has left on an error, and no task can find its channel gone: when the client's receiver loop has dropped its router, or the server's main task has returned, all tasks that router feeds have ended. |
| Guarantees.SourceActionArrives | src/stream/recv_router.rs:80-91 | A routed source action finds its sink registered and running and is appended to that sink's channel and to no other. |
| Guarantees.ReplyArrives | src/stream/recv_router.rs:93-104 | A routed reply finds its source registered; it is appended to that source's channel, or changes nothing if the source has finished. |
| Guarantees.ExitAtMostOnce | src/execute/receiver.rs:72-76 | Once the exit status was taken no `Exit` is under way and none will be sent. |
| Guarantees.StdinStopsAfterOne | src/server/execute/mod.rs:238-241 | In every run of a session at most one event after the main task's sending of stdin's `SinkClosed` is the sending of a `Data` by stdin's source. |
| Guarantees.WhatIsSent | src/stream/source.rs:89-92 | Those two events put exactly `SinkClosed` for stdin's source, and exactly the packet in the source's hands, on their ways. |
| Guarantees.WindowEndsAfterStatus | src/execute/window_change.rs:46-60 | In every reachable session with a pseudo-terminal the window-change task has ended only if the client's main task has received the exit status. |
| Guarantees.NoHeadOfLineBlocking | src/stream/recv_router.rs:87-89 | A receiver loop holding a message for a sink that is inside `write_all` can always hand it over. |
| Guarantees.FinishedIsLastMessage | src/execute/sender.rs:59-66 | `Finished` is the youngest message of its direction and its sender has stopped draining. |
| Guarantees.ServerFinishesSecond | src/server/execute/sender.rs:72-81 | When the server sends `Finished`, it has read the client's, nothing is under way towards it, and no server task holds a queue handle. |
| Guarantees.FinishedHandshake | src/server/execute/receiver.rs:95-108 | When the client has read `Finished`, every task holding an outbound handle on either side has ended and both directions are empty. |
| Guarantees.ServerQueueNeverFills | src/server/execute/mod.rs:157 | At most ten messages are ever under way towards the client, so the 128-slot queue never makes a server task wait. |
| Histories.StatusIsTheChilds | src/server/execute/mod.rs:224-242 | In every run, the status a client knows, and so the one it returns, is that of an event in which the child ended, and every such event has that status. |
| Histories.ChildEndsOnce | src/server/execute/mod.rs:223-224 | No run has two events in which the child ends. |
| Histories.WholeRun | src/execute/mod.rs:279-287 | In every run each writer has accepted, event by event, a prefix of what the stream's reads returned; when the client has returned, all of it for each output whose pipe never broke in the run. |
| Histories.SizesAreConserved | src/execute/window_change.rs:46-68 | In every run the sizes signalled to the client are those the server's receiver loop took, followed by those under way, in order and unchanged. |
| Histories.SizesArrive | src/server/execute/receiver.rs:85-94 | The server takes the signalled sizes in order, and all of them by the time it has read `Finished`. |
| Progress.StuckIsFinal | src/server/execute/mod.rs:251-253 | A state of the invariant after the child's exit in which nothing can run is one where both `serve` functions have returned. |
| Progress.DeadlockFree | src/server/execute/mod.rs:155-256 | In every reachable state after the child's exit some task can run until both `serve` functions have returned, with the real capacities and any connection that buffers at least one message; end of file on the output pipes counts as available. |
| Termination.StepPays | src/execute/sender.rs:49-66 | Every step lowers the measure over phases, queued messages and main tasks, except that a read or a window-change signal raises it by at most 20. |
| Termination.RunIsBounded | src/stream/source.rs:73-110 | Any run from any state has at most as many steps as its first state and its inputs, reads and window-change signals, pay for: only endless input makes a run endless. |
| Bounds.AtMostOneInput | src/server/execute/mod.rs:235-241 | Once stdin is ending and no signals come, with the outputs at end of file, any run contains at most one more input, a read of stdin. |
| Termination.EveryRunFinishes | src/execute/mod.rs:279-287 | After the child's exit every run is bounded by its state and its inputs, and one that cannot go on, end of file on the output pipes being always available, has returned from both `serve` functions with the child's status and both outputs delivered. |
| Bounds.BoundExactly | src/stream/source.rs:73-112 | For every reachable state, with the outputs at end of file and a connection that buffers at least one message: one bound holds for all runs from it if and only if stdin's `SinkClosed` is injected, or its sink met a broken pipe, or its source stopped reading, and, where signals may come, the window-change task has ended. |
| Bounds.StdinForEver | src/stream/source.rs:74-100 | From any other state of the invariant there is a run of every length in which stdin is read again and again. |
| Bounds.WindowForEver | src/execute/window_change.rs:46-60 | While the window-change task has not ended there is a run of every length. |
| Bounds.ExitAloneBoundsNothing | src/server/execute/mod.rs:223-241 | The state right after the child's exit in a new session is reachable and has no bound. |
| Bounds.MainNeverWaits | src/server/execute/mod.rs:238-242 | After the child's exit the main task's sends always find room. |
| Bounds.PromptRunIsBounded | src/server/execute/mod.rs:224-243 | If the main task's first send follows the exit without a yield, every run is bounded by the state at the exit. |
| Termination.CanFinish | src/execute/mod.rs:279-287 | From every state of the invariant after the child's exit there is a run without any further input after which both `serve` functions have returned. |
| Termination.EverySessionCanEnd | src/server/execute/mod.rs:223-253 | However a session has gone, and with whatever status its child then ends, there is a run in which both sides return and the client returns that status. |
| ServerFailure.StepKeepsInv | src/stream/recv_router.rs:45-69 | While the failed server winds down every step keeps an invariant: each task is still to be told, has its notice in its channel, or is on its way out, no idle source has an `Ack` waiting, and at most one kill report exists. |
| ServerFailure.FailHasInv | src/server/execute/receiver.rs:98-108 | Any session state the invariant allows, cut off from the client at any moment, is a start of that machine: a receiver loop still reading shuts the tasks down, in whatever order, and one that had ended on `Finished` does nothing more. |
| ServerFailure.StuckIsFinal | src/server/execute/sender.rs:72-81 | A failed server in which nothing can run has ended all stdio tasks, both loops and `serve`, unless its receiver loop had ended before the failure and its main task still waits for the child: neither the report nor the notify permit holds anything up. |
| ServerFailure.RunIsBounded | src/server/execute/receiver.rs:98-108 | Every run of a failed server is bounded by a measure that each step lowers, reads of a child that still runs included. |
| ServerFailure.FailureEndsEverything | src/server/execute/mod.rs:223-253 | From every reachable session state: after the connection fails every run is bounded, and one that cannot go on has ended everything if and only if it has not left the main task waiting for the child behind a receiver loop that had ended. |
| ServerFailure.EndsExactly | src/server/execute/receiver.rs:95-108 | For every reachable session state: all runs that cannot go on after the failure have ended everything if and only if the receiver loop is still reading or the main task has left its select. |
| ServerFailure.NobodyNotices | src/server/execute/mod.rs:223-253 | A reachable session, for a connection of any capacity, in which the client has said `Finished`, the child runs and all stdio tasks of the server have ended: after a failure nothing can move and nothing has returned. |
| ServerFailure.StepsAlike | src/server/execute/mod.rs:223-253 | Whatever a server task, its sender loop or its main task can do in a reachable session, it can do after a failure, with the same effect. |
| ServerFailure.SelectsOnce | src/server/execute/mod.rs:223-251 | In every run of a failed server the main task leaves its select exactly if the child ended or a kill report was taken, never both, and it sends something only if the child ended. |
| ServerFailure.KillComesLast | src/server/execute/receiver.rs:98-107 | The main task can take the kill report only when every task has been told or is on its way out. |
| ServerFailure.ReportNeverBlocks | src/server/execute/receiver.rs:101-106 | The kill report never waits: the capacity-one channel is empty when it is sent. |
| ClientFailure.StepKeepsInv | src/stream/recv_router.rs:45-69 | While the failed client winds down every step keeps an invariant: each task is still to be told, has its notice, or is on its way out; a failure is reported only where no status was; the main task knows what was reported. |
| ClientFailure.StuckIsFinal | src/execute/mod.rs:279-287 | A failed client on which nothing can run has returned from `serve`, with a status or with the failure. |
| ClientFailure.FailureEndsEverything | src/execute/receiver.rs:81-90 | From every reachable session state: after the client's connection fails every run is bounded by its first state and its window-change signals, and one that cannot go on has returned the child's own status if it had been taken, and the failure otherwise. |
| ClientFailure.SuccessMeans | src/execute/mod.rs:279-287 | If the client still returns a status, it is the child's, each output is a prefix of what the server read, and an unbroken pipe got all of it exactly if all of it had been handed over to the client's sinks before the failure. |
| ClientFailure.SuccessIsWholeExactly | src/execute/receiver.rs:81-90 | For every reachable session state and each output: in all runs after the failure a returned status with an unbroken pipe means the whole output, if and only if no status had been taken, or the pipe was broken already, or the whole output had been handed over. |
| ClientFailure.ExitOvertakes | src/server/execute/mod.rs:238-242 | A reachable session, for a connection of any capacity and any status, whose client has taken the status while a byte of the output is still at the server. |
| ClientFailure.SuccessWithoutTheOutput | src/execute/receiver.rs:81-90 | From there a run after the failure in which the client returns the status, no pipe has broken, and the output is incomplete. |
| ClientFailure.StepsAlike | src/execute/mod.rs:279-287 | Whatever a client task, its sender loop or its main task can do in a reachable session, it can do after a failure, with the same effect. |
| ClientFailure.ReturnsAfterAll | src/execute/mod.rs:279-287 | In every run of a failed client that returns a status, all its tasks, its receiver loop and its sender loop have ended by then. |
| ClientFailure.WindowEndsAfterReport | src/execute/window_change.rs:46-60 | In every run of a failed client that has a window-change task, that task has ended only if the main task has received the status or the failure. |
| SharedSession.StepErases | src/stream/listener.rs:71-90 | One step of a session among other traffic is, without that traffic, at most one step of the session. |
| SharedSession.RunErases | src/execute/sender.rs:49-66 | Any run among other traffic, without that traffic, is a run of the session between the same states. |
| SharedSession.EndToEnd | src/execute/mod.rs:279-287 | When the client's `serve` returns, with any other traffic on the connection, its status is the child's and both outputs were delivered, or a prefix where a pipe broke. |
| SharedSession.AlwaysPrefix | src/stream/sink.rs:70-92 | Among any other traffic each stream's output is at every moment a prefix of its input, at most one packet behind while its sink is open. |
| SharedSession.NothingFails | src/stream/recv_router.rs:71-104 | Among any other traffic no stdio task panics or loses its channel, and neither receiver loop leaves on a stdio message or a second `Exit`. |
| SharedSession.FinishedHandshake | src/server/execute/receiver.rs:95-108 | Among any other traffic, when the client has read `Finished`, all stdio tasks of both sides and the window-change task have ended, no other task holds a handle of either queue, and nothing of anybody's is under way. |
| Forwarding.PortStepKeepsInv | src/stream/listener.rs:59-94 | No event of a listener, a connecter or a connect task trips a router assertion, and each keeps its port's invariant. |
| Forwarding.AssertsNeverFire | src/stream/recv_router.rs:25-43 | In every run with any number of ports and connections no router assertion fires, and the server finds an entry for every message it routes. |
| ForwardedStreams.StepKeepsInv | src/stream/recv_router.rs:71-130 | Every step of every forwarding task, of the handshake and of both receiver loops keeps every stream of every connection inside the two-party protocol. |
| ForwardedStreams.ServerNeverFails | src/stream/sink.rs:16-20 | In every run the server's receiver loop never fails, the sink that the next message of either direction is for has not ended, and the client's loop fails at most on early data. |
| ForwardedStreams.ForwardedBytes | src/stream/sink.rs:70-92 | For every forwarded connection, in both directions and in every run: no panic, what was written is a prefix of what was read, at most one packet behind while the sink is open, and all of it once it stops unclosed. |
| Forwarding.OneConnectAtATime | src/stream/listener.rs:117-135 | In every run, per port, requests, busy connect tasks and answers are together exactly the one connection its listener waits for, and its answer is its own; `ListenerClosed` is the last action. |
| Forwarding.AnswersSayWhatWasFound | src/stream/connecter.rs:99-118 | In every run an answer under way, or in its listener's channel, is positive if and only if the run contains the event in which that connect succeeded, and negative if and only if it contains the one in which it failed; only connections whose connect succeeded have tasks on either side. |
| Forwarding.IdsAreFresh | src/stream/recv_router.rs:25-43 | In every run the id a listener is about to register is not registered, the one it is about to forget is, and connections about to get their connect task or their stream tasks do not have them yet. |
| Forwarding.ActionFindsConnecter | src/stream/recv_router.rs:106-117 | An action that reaches the server finds its connecter running, with room in its channel. |
| Forwarding.ResponseFindsWaiter | src/stream/recv_router.rs:119-130 | A response that reaches the client finds its own waiter, alone registered for the port and waiting, with room in its channel. |
| Forwarding.ServerRegistersFirst | src/stream/connecter.rs:99-118 | A stream message from the client always finds its connection registered on the server. |
| Forwarding.EarlyDataBreaksClient | src/stream/listener.rs:73-85 | A run in which the server's first data arrives before the client has registered the connection, and the client's receiver loop fails. |
| Forwarding.EarlyDataExactly | src/stream/recv_router.rs:80-91 | Server data fails to be routed exactly when the listener of its port is still waiting for the response of that very connection, which then already lies in its channel. |
| ForwardingTasks.Listen | src/stream/listener.rs:48-97 | Whatever becomes of each round, the accept loop asks once for each accepted connection it can send for, in order; it says `ListenerClosed` if the queue is still open and fails otherwise; no assertion fires, and it leaves the router as the port machine says. |
| ForwardingTasks.ConnectRemote | src/stream/listener.rs:71-74 | If the queue is open `Connect` is sent, and a response routed by its id finds the channel registered for it and reaches the listener; a closed queue or a missing response is an error; both assertions hold and all maps end as they were. |
| ForwardingTasks.RoundsMeaning | src/stream/listener.rs:59-87 | Between rounds of the port machine nobody waits, and exactly the established connections have their tasks. |
| ForwardingTasks.AskedOnce | src/stream/listener.rs:59-60 | Connections are asked for in increasing order, each accepted one exactly once, the others never. |
| ForwardingTasks.Serve | src/stream/connecter.rs:73-87 | The connecter spawns a connect task for each `Connect` before the first `ListenerClosed` and then ends. |
| ForwardingTasks.EveryConnectIsServed | src/stream/connecter.rs:73-87 | Fed by one listener, a connecter spawns one task for every connection asked for, in order: task `k` is for the connection of request `k`. |
| ForwardingTasks.Respond | src/stream/connecter.rs:99-118 | A connect task answers for its own connection with what its connect found, and registers the connection exactly on success, as the port machine does. |
| Framing.TruncatedStream | src/protocol.rs:193-216 | A receiver reading the frames of accepted messages cut off anywhere gets exactly the complete messages and then an error. |
| Framing.RoundTrip | src/protocol.rs:218-248 | Reading the frames of any accepted message list returns that list and then finds the end. |
| SenderTask.SameLimit | src/protocol.rs:199-229 | A receiver refuses a size if and only if a sender whose writes all succeed refuses a message of that size, and then before anything is written. |
| Framing.U32RoundTrip | src/protocol.rs:199-235 | The four size bytes denote the size. |
| Framing.U32IsBigEndian | src/protocol.rs:199-235 | The size is written and read most significant byte first. |
| Framing.FrameBytes | src/protocol.rs:218-248 | A frame is the length of its body in that order, and then the body. |
| Framing.Reader.ReadExact | src/protocol.rs:209-213 | However the bytes are chunked the buffer is filled with the next bytes, or the stream was too short. |
| Framing.Reader.RecvBody | src/protocol.rs:193-216 | Reading one message from a chunked stream: the four bytes in network order say how many follow; too large a size is refused with nothing else read, and otherwise exactly the body is taken or the stream was too short. |
| Framing.Reader.ReceiveAll | src/execute/receiver.rs:55-68 | A receiver loop, each iteration on a frame boundary, reads the messages and the error the unchunked stream determines. |
| SenderTask.Connection.SendMessage | src/protocol.rs:218-248 | Succeeds if and only if the message is within the limit and the writes of size and body and the flush succeed; then the wire has gained exactly the frame, and otherwise a part of it, nothing if the message is too large. |
| SenderTask.Sender.SendIfNotFailed | src/server/execute/sender.rs:88-108 | After a failure nothing is written or reported any more; a failure is remembered and reported once. |
| SenderTask.Sender.Handle | src/execute/sender.rs:46-66 | The queue is drained to its end whatever fails; the wire gets the specified bytes; one report if and only if something failed. |
| SenderTask.DeliverIsTranscript | src/server/execute/sender.rs:56-81 | However writes fail, even if later ones would succeed, the wire holds the frames of a prefix of the messages and after a failure at most one cut frame. |
| SenderTask.ReceiverReadsPrefix | src/execute/sender.rs:44-66 | The other side reads a prefix of the queued messages, all of them unless a write failed. |
| SourceTask.Task.Read | src/stream/source.rs:71-75 | A read replaces the front of the reused buffer and leaves what is behind it. |
| SourceTask.Task.Handle | src/stream/source.rs:62-115 | The loop over the reused buffer sends exactly what the source machine sends and stops where it stops. |
| SourceTask.SendsWhatItRead | src/stream/source.rs:75-92 | The bytes sent are the bytes read, in order, but for the packet being sent. |
| SourceTask.ClosedIsLast | src/stream/source.rs:111-112 | `SourceClosed` is sent exactly by a source that ran to its end, once and last. |
| SinkTask.Task.DoIfNotClosed | src/stream/sink.rs:101-124 | Nothing happens once closed; a broken pipe closes for good and is no error; other errors are passed on. |
| SinkTask.Task.Handle | src/stream/sink.rs:59-98 | The loop writes and sends exactly what the sink machine does and stops where it stops. |
| SinkTask.Replies | src/stream/sink.rs:74-91 | One reply per `Data` and one more if a flush broke, at most once in a sink's life; no `Ack` after a `SinkClosed`. |
| SinkTask.WritesWhatItGot | src/stream/sink.rs:72-76 | The writer gets what was received, in order: all but the packet in progress, or a prefix once closed or failed. |
| WindowTask.Task.Handle | src/execute/window_change.rs:38-72 | The loop sends one message for each signal whose window size is known, in order, until the task-end signal. |
| WindowTask.SizesMeaning | src/execute/window_change.rs:54-68 | These are one message for each known size, with its width and height, at the place given by how many came before. |
| WindowTask.SessionSendsSizes | src/execute/window_change.rs:46-68 | A session's window-change task, given the same signals, leaves the same messages in the queue and everything else as it was. |
| RecvRouter.Channel.Send | src/stream/sink.rs:17-20 | A send waits for room and fails exactly when the receiver is gone; the channel keeps its capacity and its order. |
| RecvRouter.Router.InsertSinkTx | src/stream/recv_router.rs:25-27 | The entry is added, and the assertion holds if and only if the id is new. |
| RecvRouter.Router.InsertSourceTx | src/stream/recv_router.rs:29-31 | As for sinks. |
| RecvRouter.Router.InsertConnecterTx | src/stream/recv_router.rs:33-35 | As for sinks, by port. |
| RecvRouter.Router.InsertListenerTx | src/stream/recv_router.rs:37-39 | As for sinks. |
| RecvRouter.Router.RemoveListenerTx | src/stream/recv_router.rs:41-43 | The entry is removed, and the assertion holds if and only if it was there. |
| RecvRouter.Router.SendStreamAction | src/stream/recv_router.rs:71-130 | Changes at most the addressed channel of the addressed map; fails exactly if there is no entry or its task has gone, but for a source, whose late replies are dropped. |
| RecvRouter.RoutingFeeds | src/stream/recv_router.rs:71-78 | Routing one action feeds it to the task it is for and nothing to any other. |
| RecvRouter.FedThenRouted | src/stream/recv_router.rs:71-78 | One more routed action after others feeds its task; routing fails exactly for unroutable actions. |
| RecvRouter.RoutedInSequence | src/stream/recv_router.rs:71-78 | After any sequence of routed actions each task has been fed exactly its part of them, in order. |
| RecvRouter.FedMeaning | src/stream/recv_router.rs:71-130 | A task that was fed some actions has taken in exactly those for its channel, each at the place given by how many of them came before. |
| RecvRouter.Router.Shutdown | src/stream/recv_router.rs:45-69 | In whatever order the maps are drained, every sink gets `SourceClosed` and every source `SinkClosed`, each once, unless its task has gone; three maps end empty, the listeners stay. |
| ReceiverTask.ServerReceiver.Receive | src/server/execute/receiver.rs:69-97 | The loop ends at the first `Finished`, error or unroutable action; until then every task was fed its part of the messages, and the terminal, if there is one, got width and height of every size, each at its place. |
| ReceiverTask.ServerReceiver.Handle | src/server/execute/receiver.rs:56-112 | After an error everything is shut down and the child's end requested once; the notify permit is given after an error or `Finished`, and neither after a routing error. The terminal got the sizes that the loop handled. |
| ReceiverTask.ClientReceiver.Receive | src/execute/receiver.rs:55-79 | As on the server; an `Exit` is an error if there was one before or if the main task no longer waits for it. |
| ReceiverTask.ClientReceiver.Handle | src/execute/receiver.rs:45-95 | The status carried by a handled `Exit` is reported; a failure is reported only if no `Exit` was handled and the main task waits; after a failure everything is shut down. |
| ReceiverTask.ServerActionsMeaning | src/server/execute/receiver.rs:83-84 | What the tasks were fed are the actions of all `Stream` messages handled, each at the place given by how many came before, and nothing else. |
| ReceiverTask.ClientActionsMeaning | src/execute/receiver.rs:70-71 | As on the server. |
| ReceiverTask.RoutedAsSession | src/stream/recv_router.rs:80-104 | Where a session's receiver loop routes a stdio message, a router with the same channels has the same channels afterwards, fails exactly where the loop leaves, and drops a late reply where the loop changes no stream. |
| ReceiverTask.WaitsAsSession | src/stream/recv_router.rs:87-100 | A session's receiver loop waits exactly where the router's send would: for the full channel of a live task. |
| ReceiverTask.ShutdownIsComplete | src/stream/recv_router.rs:45-62 | On a server without forwarding any order of draining tells every task, as the failure machine assumes. |
| Serve.ListenAll | src/execute/mod.rs:123-134 | Listener `i` and remote address `i` come from specifier `i`; fails exactly if some address cannot be listened on. |
| Serve.ParseAll | src/server/execute/mod.rs:75-79 | All addresses in order, or an error exactly if one does not parse. |
| Serve.ForwardPorts | src/execute/mod.rs:261-271 | Port `i` on the client is specifier `i`'s listener, and port `i` on the server its connect address. |
| Serve.NewConnecter | src/stream/connecter.rs:39-54 | A new channel of capacity 128 is registered for the port. |
| Serve.StartConnecter | src/server/execute/mod.rs:199-209 | One round of the connecter loop: its task keeps one handle of the queue and the loop's own clone is gone again. |
| Serve.ServeServer | src/server/execute/mod.rs:155-209 | For any pipes and ports: which tasks are registered, what is announced for missing pipes, and who holds a handle of the queue after all clones and drops; no assertion fires. |
| Serve.SetUpMeaning | src/server/execute/mod.rs:155-209 | Exactly the missing pipes are announced, each once, as closed sink or closed source; exactly the main task, the tasks of the pipes and the connecters are left with a handle. |
| Serve.ServeClient | src/execute/mod.rs:215-277 | Which tasks are registered and who holds a handle of the queue after all clones and drops, the main task not among them; no assertion fires. |
| Serve.HandlesAreHolders | src/execute/sender.rs:49 | A session's sender loop finds its queue deserted exactly when no holder of a handle is left. |
| Serve.SetUpIsInit | src/server/execute/mod.rs:132-153 | Both set-ups together are the session's initial state, with and without a pseudo-terminal: same queues, same registrations, same holders of handles. |
| Serve.Conclude | src/server/execute/mod.rs:223-251 | When the child exited with a code, the queue gains stdin's `SinkClosed` and then `Exit` with that code, when a signal killed it `Exit` with that signal, and the main task's handle goes: as in the session's run of exit, injection and `Exit`. Where the child's end was only requested nothing is sent and the handle still goes. |
| Serve.ConcludesAsSession | src/server/execute/mod.rs:224-243 | In a session that run exists whenever there is room; it records the exit code or signal, enqueues stdin's `SinkClosed` and then `Exit` with it, and gives up the main task's handle and no other. |
| Serve.ExitCodeArrives | src/execute/mod.rs:279-287 | In every run in which the child exited with a code, or was killed by a signal, a client that has returned returned that code, or that signal. |

## Left out

- Sockets, pseudo-terminals, processes, signals, polling of stdin, command line, address lookup, tracing: only their outcomes appear, as arbitrary inputs.
- Real time, fairness of `select!`, and what the operating system does with bytes after `write_all` returned.
- The serialization library: framing is proved for any codec whose decoding inverts its encoding.
- `SerialError`, argument parsing and raw mode: short single-loop facts.
- The connection inside `Session` carries messages, not bytes, and its capacity counts messages; `Framing` and `SenderTask` treat bytes.
- Client and server messages are one type in `Session`; `SessionInvariant.Belongs` says which can travel in which direction, and every message in a session does.
- Sink write errors other than a broken pipe, in sessions: the task dies without replying. `SinkTask` has them.
- A receiver loop that leaves on a routing error bypasses the shutdown; shown in `ReceiverTask`, excluded from sessions, where it is proved not to happen.
- A server without a stdin pipe: set-up covers it, sessions do not, since `bind_stdio` always supplies one.
- Wrap-around of the 32-bit port and connection counters.
- In `Forwarding` and `ForwardedStreams` the outbound queues are unbounded; deadlock freedom with many forwarded connections is not claimed, since both 128-slot queues can fill.
- Forwarded connections and connects that are under way when a connection fails: `ServerFailure` and `ClientFailure` have the stdio tasks only.
- `SharedSession` is about safety: other traffic may fill the queues, so progress is not claimed for it, and it is about runs without early data, since early data ends the client's receiver loop.
- Loop methods handle their inputs without another task changing the router in between; interleavings are covered by the state machines.
- The joins at the end of both `serve` functions are modelled on values only, as steps of `Session`.
