# Verification of the nRF RPC core

A Dafny model of the nRF RPC protocol engine, `nrf_rpc/nrf_rpc.c`, on top of the
OS contracts in `nrf_rpc/template/nrf_rpc_os_tmpl.h`, with proofs about every run
of two peers that talk to each other.

Check everything with `dafny verify dfyconfig.toml`.

## What is modelled

* `Contexts.dfy`, `Engine.dfy`: the command path of two peers as one interleaved
  state machine. The state holds both context pools (owner, mutex, remote id,
  uint8 use count, response handler, one-slot mailbox), every thread (TLS, stack of
  command and decoder frames, whether it runs, sends or waits), the transport as an
  unordered set of packets, the receive thread and the pool queue of each side, and
  the stop gate. One step is one stretch of code between two points where another
  thread can interfere. Events, failed sends, timeouts, stop, the abort sweep and
  resume are steps like any other.
* `CallStacks.dfy`: the specification of a conversation, one stack of nested calls
  between two threads, without packets or ids.
* `Refinement.dfy`: message passing refines those call stacks. `Example.dfy`: a command
  with a callback, state by state, that meets the assumptions made there. `Nesting.dfy`:
  runs with callbacks of any depth. `Brackets.dfy`: what the refinement means for an
  observer of calls, starts, answers and returns.
* `Events.dfy`: events and their acknowledgements.
* `Packets.dfy`, `Stop.dfy`: no packet in two places; the admission gate and sweep.
* `Aborts.dfy`: what becomes of the NULL that the sweep posts. `StopExamples.dfy`: two
  runs in which it is lost, or fails a command issued after resume.
* `Buffers.dfy`: receive buffers under the auto-free and explicit-free transports, with
  the receive thread blocked while it waits for a decode_done_event.
* `Progress.dfy`: what can go on in a state, with the receive thread also blocked in
  `nrf_rpc_os_thread_pool_send`. `DeadlockExamples.dfy`: two runs that come to a halt.
* `LostBuffers.dfy`: the packets that a sweep finds in mailboxes.
* `CallPath.dfy`: the recursion `nrf_rpc_cmd_common`, `wait_for_response`,
  `parse_incoming_packet`, decoder, as in-place code of one thread.
* `Codec.dfy`: headers and INIT packets, byte by byte.
* `Groups.dfy`, `Binding.dfy`: group ids, the ready counter, and the two-peer
  handshake with the single internal task slot. `Drain.dfy`: the handshake ends by
  itself. `HandshakeRun.dfy`: it takes place for any tables.
* `Traffic.dfy`: the packets that packets cause.
* `Cleanup.dfy`: the intrusive list of cleanup handlers.

## Main results

1. Nested-call refinement and single token. A *polite* run is one without timeouts,
   failed sends and stop, in which a decoder responds exactly once and as its last
   RPC action. In every polite run every interleaving of arbitrarily deep callbacks
   over many contexts is a run of the abstract call stacks with the same
   observations. The packets in flight and the calls on the way correspond one to
   one, each packet carrying the kind, value and context ids of its own call, so a
   mailbox is never overwritten. Calls and returns are bracketed: a return belongs to
   the innermost open command of its thread and carries the answer of the decoder that
   was started with its argument. For every depth that the uint8 counters allow there is
   such a run, from idle to idle.
2. In all runs: exclusive contexts, exact use counts, restoration of every frame by
   every exit of a command, and when exactly each step is possible.
3. Handshake: agreement of ids under loss, reordering and unbind; convergence
   without loss; exact ready counter and one ready signal per epoch; every internal
   task runs once with the contents posted; packets, tasks and wake-ups are bounded by
   what is under way and what comes from outside.
4. Buffers: in polite runs exactly one place per received packet and one return of it;
   in all runs no reader of a reclaimed buffer under auto free.
5. Progress: in polite runs whatever is under way on a side goes on there, unless a
   thread waits in a call that it made before it was done with an auto-free packet
   (then for good), or the pool of the side is used up by threads that wait in calls.
6. Stop: the gate, and exactly when an abort reaches the wait it is meant for, lies in
   a free context, and fails a fresh command.
7. Bounded protocol traffic from any packets whatever, cleanup list, wire round trips,
   group ids.

Where a property holds only under a condition, the exact condition is proved:
`Codec.CmdRoundTrip`, `Codec.HeaderRoundTrip`, `Codec.InitRoundTrip`,
`Groups.CounterBreaksIff`, `Engine.NestingLimit`, `Aborts.AbortCertainIff`,
`Aborts.StaleAbortIff`, `Aborts.FreshCommandFailsIff`, `Progress.CallBlocksIff` and
`LostBuffers.SweepForgetsIff` are equivalences.

Consequences of the code as it is:

* A packet that passed the test of `is_stopped` before the flag was set can take the
  context mutex after the sweep, and `msg_set` then overwrites the NULL. Stop returns
  and the pending wait is not aborted (`StopExamples.OverwrittenAbortRun`). While the
  side stays stopped this is the only way: the abort is certain exactly when the receive
  thread holds no packet for that context at the visit (`Aborts.AbortCertainIff`).
* `cmd_ctx_free` on the server path leaves a use count of 1, so a later stop puts a NULL
  into the mailbox of a free context, and a command that reserves this context after
  resume returns as timed out (`StopExamples.StaleAbortRun`). It happens exactly to
  contexts that last served a command, were swept before they were reserved again, and
  have received nothing since (`Aborts.StaleAbortIff`, `Aborts.FreshCommandFailsIff`).

* Under auto free a decoder that issues a command before `nrf_rpc_decoding_done` never
  gets its response: the receive thread waits for the decoder and the decoder for the
  receive thread (`DeadlockExamples.CallbackDeadlock`). It happens exactly to threads
  that issue a command while they hold an auto-free packet (`Progress.CallBlocksIff`,
  `Progress.SelfBlockedForever`); without such calls `Progress.TidyGoesOn` holds.
* Under either discipline an event, or a first command, that finds every pool thread
  waiting in a call keeps the receive thread in `nrf_rpc_os_thread_pool_send`, in front
  of the responses those threads wait for (`DeadlockExamples.EventDeadlock`).
* A sweep that finds an untaken packet in a mailbox replaces it by the NULL. Under
  explicit free the buffer is never freed; under auto free the receive thread waits for
  its decoding forever, and the side receives nothing more, after resume neither
  (`LostBuffers.SweepForgetsIff`, `LostBuffers.SweptPacketLost`).

The protocol document asks for command id 0xFF in INIT packets
(`nrf_rpc/doc/protocol_specification.rst`, "Command ID"); the code sends 0, and the
model follows the code.

## Model

| member | source | states |
|---|---|---|
| `Refinement.NestedCallRefinement` | nrf_rpc/nrf_rpc.c:901-1026 | every polite run is a run of the call stacks with the same calls, starts, answers, handler invocations and returns, thread by thread and value by value, so each response reaches the innermost outstanding command |
| `Refinement.Simulate` | nrf_rpc/nrf_rpc.c:469-540 | each single step of the two peers, in any related pair of states, is one step of the call stacks (or none) with the same observation |
| `Brackets.MatchedReturns` | nrf_rpc/nrf_rpc.c:901-944 | in polite runs every return, and every response handler that is run, belongs to the innermost command its thread has open, has the sink of that command, and carries the value with which a thread of the other side answered after being started with the argument of that command |
| `Refinement.SingleToken` | nrf_rpc/template/nrf_rpc_os_tmpl.h:134-145 | one run of the call stacks fits all states: in each, every command and response in flight is the packet of the innermost call of exactly one conversation, with its kind, value, side and context ids; a conversation has at most one packet, and has one unless its call is executing, accepted or not yet sent; no two packets are for one context |
| `Refinement.MailboxNeverOverwritten` | nrf_rpc/nrf_rpc.c:773-818 | when the receive thread gets the mutex of the addressed context, that context exists, is in use, its owner waits and its mailbox is empty |
| `Refinement.TalkRouteHandled` | nrf_rpc/nrf_rpc.c:794-804 | under auto free the handler that the receive thread runs is the one given to the innermost command, with the value its decoder answered |
| `Refinement.TalkAnswer` | nrf_rpc/nrf_rpc.c:912-943 | a waiting thread that takes anything but a command takes the answer of its own innermost call and hands it to that call's sink |
| `Refinement.TalkTakeCmd` | nrf_rpc/nrf_rpc.c:499-513 | a callback runs on the thread that waits for the response, with the remote id of its conversation |
| `Refinement.TalkSend` | nrf_rpc/nrf_rpc.c:986-991 | the command carries the ids of its own conversation: unknown destination exactly for the first call |
| `Refinement.TalkRespond` | nrf_rpc/nrf_rpc.c:1085-1108 | the response of a callback is addressed to the context that waits for it, although the remote id is never restored |
| `Nesting.DeepCallbacks` | nrf_rpc/nrf_rpc.c:219-238 | from every idle state, between any two threads and free contexts of the two sides and for every depth n with 1 + n/2 <= 255, there is a polite run in which n nested calls are open at once, all return innermost first with their own answers, and everything is idle again |
| `Example.CallbackRun` | nrf_rpc/nrf_rpc.c:469-540 | a command whose decoder calls back, with both responses, is a polite run from idle to idle in which each caller gets its own answer |
| `Engine.InvStep` | nrf_rpc/nrf_rpc.c:190-238 | every step of every interleaving keeps ownership, mutex, use count and shown handler of all contexts consistent with the frames of the threads |
| `Engine.ContextExclusivity` | nrf_rpc/nrf_rpc.c:190-238 | in all runs a reserved context is in exactly one TLS, a thread has at most one, none between work items, and the use count is the number of activations |
| `Engine.AdmitIff` | nrf_rpc/nrf_rpc.c:977-984 | in all runs a command gets through exactly when its thread runs, its side is not stopped nor being stopped, and the thread gets a free context or nests below the 256th activation |
| `Engine.PossibleIff` | nrf_rpc/nrf_rpc.c:784-817 | in all runs when exactly each step is possible, in terms of what the threads do instead of mutexes |
| `Engine.AnyStart` | nrf_rpc/nrf_rpc.c:1194-1205 | pools of any sizes up to 128 with any threads and disciplines can start |
| `Engine.WaitingShowsInnermost` | nrf_rpc/nrf_rpc.c:993-1020 | in all runs a context that is waited on is unlocked and shows the handler of the innermost command |
| `Engine.LeaveRestores` | nrf_rpc/nrf_rpc.c:1019-1022 | each exit (response, abort, timeout, failed send) restores handler, use count and ownership of the frame below |
| `Engine.CallRestores` | nrf_rpc/nrf_rpc.c:946-1026 | over a whole call, with any nesting and interleaving inside, context, handler and use count of the thread are as before |
| `Engine.TlsStable` | nrf_rpc/nrf_rpc.c:219-238 | a thread keeps its context as long as it has any frame |
| `Engine.NestingLimit` | nrf_rpc/nrf_rpc.c:219-238 | with n activations on one context a packet for it is accepted exactly when n is no multiple of 256, and the end of one frees it exactly when n - 1 is a multiple of 256 |
| `Contexts.AbortAllOps` | nrf_rpc/nrf_rpc.c:695-706 | the sweep posts NULL to every context in use and leaves the others alone |
| `Packets.UniqueRun` | nrf_rpc/nrf_rpc.c:709-874 | in all runs a packet is in at most one of transport, receive thread, pool queue and mailboxes |
| `Packets.GoneForever` | nrf_rpc/nrf_rpc.c:724-734 | a packet that was dropped never shows up again |
| `Events.EventHandledOnce` | nrf_rpc/nrf_rpc.c:515-521 | in all runs an event that is handled was sent before by a thread of the other side with the same value, and is handled once |
| `Events.EventsAcknowledged` | nrf_rpc/nrf_rpc.c:522-531 | in all runs the acknowledgements a side has sent are as many as the events it has handled, those still in their handlers excepted |
| `Stop.StopAbortsPending` | nrf_rpc/nrf_rpc.c:1307-1312 | before stop returns the sweep visits the context of every call pending when the flag was set; the thread has finished its calls by then, or is in its innermost wait and gets the NULL |
| `Aborts.AbortIff` | nrf_rpc/nrf_rpc.c:695-706 | in all runs a mailbox holds a NULL of a sweep exactly when a visit put it there and nothing was deposited or taken since |
| `Aborts.AbortKept` | nrf_rpc/nrf_rpc.c:784-811 | until the waiting thread takes it, the NULL is still there exactly when no packet was deposited since the last visit; while stopped only the packet the receive thread already held can do that |
| `Aborts.AbortCertainIff` | nrf_rpc/nrf_rpc.c:913-917 | the thread finds the NULL in every continuation of the run exactly when the receive thread holds no packet for its context at the visit |
| `Aborts.StopAbortsWait` | nrf_rpc/nrf_rpc.c:1307-1312 | if the receive thread held no packet for the context when the flag was set, every pending call is finished before the visit or its innermost wait ends as aborted |
| `StopExamples.OverwrittenAbortRun` | nrf_rpc/nrf_rpc.c:724-734 | a run in which a packet past the test of the flag overwrites the NULL, stop returns, and the waiting thread serves that packet |
| `Stop.StopClosesGate` | nrf_rpc/nrf_rpc.c:977-980 | until resume no command is admitted and a packet whose handling starts then reaches neither mailbox nor pool, ever |
| `Stop.SweepProgress` | nrf_rpc/nrf_rpc.c:695-706 | the sweep of one stop has visited every context below its counter |
| `Aborts.LeftoverIff` | nrf_rpc/nrf_rpc.c:511-513 | in all runs a free context has a non-zero count exactly when it last served a command of the peer |
| `Aborts.StaleAbortIff` | nrf_rpc/nrf_rpc.c:701-703 | in all runs a free context holds a NULL exactly when it served a command, was swept before it was reserved again, and nothing was deposited or taken since |
| `Aborts.StaleSurvives` | nrf_rpc/nrf_rpc.c:190-217 | serving another command on such a context, or a failed send on it, gives it back with the NULL still there |
| `Aborts.CommandAbortedIff` | nrf_rpc/nrf_rpc.c:913-917 | the first wake-up of any command finds a NULL exactly when its context held one at admission or a sweep visited it since, with no packet deposited after that |
| `Aborts.FreshCommandFailsIff` | nrf_rpc/nrf_rpc.c:977-991 | a command of a thread without a context, with no sweep while it waits, returns as timed out exactly when it reserved a stale context and nothing was deposited since |
| `Stop.ServedContextKeepsCount` | nrf_rpc/nrf_rpc.c:511-513 | a context given back by the server path is free with use count 1 |
| `Stop.StaleAbortFailsNextCall` | nrf_rpc/nrf_rpc.c:913-917 | a command on a free context that holds a NULL is sent and can return at once as timed out, with the context free again |
| `StopExamples.StaleAbortRun` | nrf_rpc/nrf_rpc.c:1307-1328 | a run from the initial state that serves a command, stops, resumes, and in which the next command comes back at once with its packet still in the transport |
| `Buffers.BufferConservation` | nrf_rpc/nrf_rpc.c:784-833 | under either discipline, in polite runs, a received packet is in exactly one place and is given back at most once |
| `Buffers.DrainedMeansFreedOnce` | nrf_rpc/nrf_rpc.c:876-887 | when a side is drained every packet it received has been given back exactly once |
| `Buffers.AutoFreeLifetime` | nrf_rpc/nrf_rpc.c:806-817 | under auto free, in all runs, a packet some thread can still read is the one the receive thread waits for and has not been reclaimed |
| `Buffers.ReturnsAfterOwnDecoding` | nrf_rpc/nrf_rpc.c:822-833 | the receive handler returns for a handed-off packet only after the decoding_done of that packet |
| `Buffers.HeldUntilDone` | nrf_rpc/nrf_rpc.c:876-887 | in all runs a packet given to a decoder, or to a caller that asked for the response, is with that thread and not given back until that thread's decoding_done |
| `Buffers.BufStep` | nrf_rpc/nrf_rpc.c:805-833 | every action keeps the books of held, freed and awaited buffers |
| `Progress.NoDeadlock` | nrf_rpc/nrf_rpc.c:813-831 | in every state of a polite run, with the receive thread blocked by decode_done_event and thread_pool_send: while a thread is in a call or decoder something is under way, and whatever is under way on a side goes on (a step of the core, application code, or a pool used up by waiting threads), unless a thread of that side blocks itself |
| `Progress.TidyGoesOn` | nrf_rpc/nrf_rpc.c:813-831 | if no thread calls, and no decoder returns, while it holds an auto-free packet, whatever is under way on a side goes on |
| `Progress.CallBlocksIff` | nrf_rpc/nrf_rpc.c:822-831 | a command blocks its own thread exactly when the thread still holds an auto-free packet as it issues it |
| `Progress.SelfBlockedForever` | nrf_rpc/nrf_rpc.c:813-816 | a thread so blocked stays in that call for good, and its side receives no packet any more |
| `DeadlockExamples.CallbackDeadlock` | nrf_rpc/nrf_rpc.c:822-831 | a polite auto-free run in which a decoder calls back before decoding_done and everything halts with the response in the transport |
| `DeadlockExamples.EventDeadlock` | nrf_rpc/template/nrf_rpc_os_tmpl.h:57-67 | a polite explicit-free run in which an event finds the only pool thread waiting in a call and everything halts with its response in the transport |
| `LostBuffers.SweepForgetsIff` | nrf_rpc/nrf_rpc.c:701-703 | in all runs a visit of the sweep leaves exactly the packet it finds in the mailbox without reader and without return |
| `LostBuffers.SweptPacketLost` | nrf_rpc/nrf_rpc.c:806-817 | from then on that packet is never read nor given back, and under auto free its side never receives again, after resume neither |
| `CallPath.RpcThread.CmdCommon` | nrf_rpc/nrf_rpc.c:946-1026 | whatever arrives and however deep it nests, TLS, handler, handler data and use count are restored, contexts of other threads are untouched, and result, deliveries and remote id are those of the call tree |
| `CallPath.RpcThread.WaitForResponse` | nrf_rpc/nrf_rpc.c:901-944 | the wait loop runs every callback, returns the documented code and delivers the response to its own sink |
| `CallPath.RpcThread.ParseIncomingPacket` | nrf_rpc/nrf_rpc.c:499-513 | a callback leaves handler, handler data and use count of the waiting context as they were, and the remote id as its source, or as the last command served inside it, left it |
| `CallPath.RpcThread.Accept` | nrf_rpc/nrf_rpc.c:794-799 | under either discipline the response is delivered once, to the sink of the command that waits |
| `CallPath.RpcThread.CtxAlloc` | nrf_rpc/nrf_rpc.c:190-210 | takes a free context, resets handler, remote id and count, and puts it into the TLS: the context becomes what the engine's `Alloc` makes of it |
| `CallPath.RpcThread.CtxFree` | nrf_rpc/nrf_rpc.c:212-217 | gives the context back and keeps its count, as `Free` in the engine |
| `CallPath.RpcThread.CtxReserve` | nrf_rpc/nrf_rpc.c:219-230 | nests on the thread's context, or allocates one, as `Reserve` and `Alloc` in the engine; the count stays positive exactly when it was below 255 |
| `CallPath.RpcThread.CtxRelease` | nrf_rpc/nrf_rpc.c:232-238 | un-nests, and frees the context with the outermost activation, as `Release` in the engine |
| `CallPath.OwnAnswerLast` | nrf_rpc/nrf_rpc.c:912-943 | a call succeeds exactly when a response ends its wait, and that response is its last delivery |
| `CallPath.WholeCall` | nrf_rpc/nrf_rpc.c:1004-1025 | the result is 0 exactly when the command was sent and answered, with its own delivery last; the negative code of the transport, with no delivery, if it was not sent; ETIMEDOUT otherwise |
| `CallPath.BodySplit` | nrf_rpc/nrf_rpc.c:436-443 | the calls of a decoder deliver one after the other |
| `CallPath.OneDeliveryEach` | nrf_rpc/nrf_rpc.c:931-941 | exactly one delivery for every call of the tree that succeeds |
| `CallPath.RemoteOfLast` | nrf_rpc/nrf_rpc.c:505-505 | the last command served in a wait decides the remote id; without one it stays |
| `CallPath.RemoteOfBody` | nrf_rpc/nrf_rpc.c:505-505 | the last call of a decoder that serves a command decides the remote id; without one it stays |
| `CallPath.DepthIsMax` | nrf_rpc/nrf_rpc.c:219-230 | the nesting of a decoder is that of its deepest call, and one for a call without callbacks |
| `Codec.HeaderEncode` | nrf_rpc/nrf_rpc.c:285-292 | writes type, id, destination context, source group and destination group into bytes 0 to 4 and nothing else |
| `Codec.HeaderCmdEncode` | nrf_rpc/nrf_rpc.c:294-301 | the same with 0x80 and the source context in byte 0 |
| `Codec.HeaderBytes` | nrf_rpc/nrf_rpc.c:285-301 | the bytes of both kinds of headers, one by one, with the payload behind them |
| `Codec.DecodedFields` | nrf_rpc/nrf_rpc.c:257-283 | any packet of five bytes or more decodes to the fields at their places, with the source context of a command in the low seven bits; a shorter one is EBADMSG |
| `Codec.CmdRoundTrip` | nrf_rpc/nrf_rpc.c:257-301 | a command header survives the wire exactly when its context id is below 128, and always arrives as a command |
| `Codec.HeaderRoundTrip` | nrf_rpc/nrf_rpc.c:257-292 | any other header survives exactly when its type is below 0x80, and is never taken for a command then |
| `Codec.EncodersInjective` | nrf_rpc/nrf_rpc.c:285-301 | for each encoder equal packets mean equal payloads and headers (the plain one does not carry the source context), and no command equals another packet |
| `Codec.InitRoundTrip` | nrf_rpc/nrf_rpc.c:332-376 | an INIT packet parses back to its ids, version range and strid and passes the version check, exactly when the strid is not empty |
| `Codec.GroupInitSend` | nrf_rpc/nrf_rpc.c:332-376 | the buffer built is 0x04, 0, 0xFF, the two group ids, 0 and the strid |
| `Codec.InitBytes` | nrf_rpc/include/nrf_rpc.h:52-59 | the same for the packet, and its type is that of no other kind of packet |
| `Codec.ParsedFields` | nrf_rpc/nrf_rpc.c:552-609 | any packet of more than six bytes parses to its two version nibbles and its strid and passes the version check exactly when the low nibble is 0; a shorter one is EBADMSG |
| `Groups.GroupTable.Setup` | nrf_rpc/nrf_rpc.c:1148-1178 | dense ids 0..n-1 and a wait count equal to the number of groups with WAIT_ON_INIT for n up to 255, ENOMEM and nothing published beyond |
| `Groups.GroupTable.GroupFromId` | nrf_rpc/nrf_rpc.c:458-466 | finds exactly the assigned ids, and never NRF_RPC_ID_UNKNOWN |
| `Groups.GroupTable.GroupFromStrid` | nrf_rpc/nrf_rpc.c:563-577 | the first group with the strid, or none |
| `Groups.GroupTable.InitPacketHandle` | nrf_rpc/nrf_rpc.c:611-693 | binds, counts and spawns the task of the specification, with the error codes for version and unknown strid |
| `Groups.GroupTable.Unbind` | nrf_rpc/nrf_rpc.c:1258-1268 | forgets every remote id and the count |
| `Groups.HandleExact` | nrf_rpc/nrf_rpc.c:646-667 | an INIT with a valid source id keeps the counter equal to the number of bound wait-on-init groups and requests the signal exactly when it binds the last one |
| `Groups.ReadyIff` | nrf_rpc/nrf_rpc.c:653-657 | the count reaches a total that is not zero exactly when there are wait-on-init groups and all know their remote id |
| `Groups.HandleTask` | nrf_rpc/nrf_rpc.c:641-690 | an INIT leaves a task exactly when the group was unbound, the sender does not know this side's id, or the last wait-on-init group became bound, and the task says which |
| `Groups.CounterBreaksIff` | nrf_rpc/nrf_rpc.c:647-658 | the counter goes wrong exactly for source id 255 on a wait-on-init group |
| `Binding.BindingAgreement` | nrf_rpc/nrf_rpc.c:639-648 | in all runs, with loss, reordering and unbind, a known remote id names the peer's group with the same strid |
| `Binding.HandshakeConverges` | nrf_rpc/nrf_rpc.c:669-690 | without loss and unbind, once packets and tasks are drained, a group that either side announced is bound on both sides, each to the other's id |
| `Binding.ReadyCounterExact` | nrf_rpc/nrf_rpc.c:647-667 | in all runs the counter is the number of wait-on-init groups with a known id, and the ready signal was requested once since unbind if there are such groups and all are known, else never |
| `Binding.TaskHandoff` | nrf_rpc/nrf_rpc.c:682-690 | in all runs the task slot is not rewritten before it is copied, every posted task is copied once in order, and every copy runs once |
| `Binding.BindStep` | nrf_rpc/nrf_rpc.c:611-693 | every move of the handshake keeps agreement, counter and slot protocol |
| `Binding.ConvergeStep` | nrf_rpc/nrf_rpc.c:389-401 | every lossless move keeps an INIT, a bound id or a due reply behind each announcement |
| `Drain.RecvPosts` | nrf_rpc/nrf_rpc.c:611-693 | in all runs what a received INIT posts, binds and signals; a reply becomes due exactly when the sender does not know this side's id |
| `Drain.HandshakeDrains` | nrf_rpc/nrf_rpc.c:389-416 | from any state of any run, while nobody unbinds, the packets received, tasks copied and run, and wake-ups are bounded by what is under way and what comes from outside |
| `Drain.HandshakeGoesOn` | nrf_rpc/nrf_rpc.c:682-690 | in all runs the handshake has a move of its own, unless no packet and no task is left |
| `HandshakeRun.AnyGroupBinds` | nrf_rpc/nrf_rpc.c:1233-1241 | for any two tables and any group in both, announced by either side, a run without loss ends quiet with the group bound on both sides |
| `Traffic.TrafficBounded` | nrf_rpc/nrf_rpc.c:835-873 | from any packets and tasks the protocol by itself takes at most as many steps as an explicit measure of them: no reply, error or INIT storm |
| `Traffic.ValidTrafficLinear` | nrf_rpc/nrf_rpc.c:669-690 | if INIT packets carry valid source ids and due replies come from bound groups, the number of steps is at most the sum of fixed weights, and this form is kept |
| `Traffic.YieldsLess` | nrf_rpc/nrf_rpc.c:448-454 | what processing one packet or task yields is lighter than it, asks for no more replies, and is never an INIT without source id |
| `Traffic.HandleReceives` | nrf_rpc/nrf_rpc.c:611-693 | what the handshake does with an INIT is one of the reactions here |
| `Traffic.Reactions` | nrf_rpc/nrf_rpc.c:515-531 | the reactions do occur: acknowledgement of every event, error reports for unknown ids and contexts, nothing for ACK and ERR |
| `Traffic.AnonymousInitCostsMore` | nrf_rpc/nrf_rpc.c:669-674 | an INIT with source id 255 takes six steps where its fixed weight is four, so the linear bound needs valid ids |
| `Cleanup.Registry.Register` | nrf_rpc/nrf_rpc.c:1286-1305 | the list stays acyclic and duplicate-free; a new node goes in front, a known one changes nothing |
| `Cleanup.Registry.RunAll` | nrf_rpc/nrf_rpc.c:1313-1320 | the pass ends and calls the handlers of the list in order |
| `Cleanup.RegisterAll` | nrf_rpc/nrf_rpc.c:1286-1305 | after any sequence of registrations the list is the specified one |
| `Cleanup.RegisteredExactly` | nrf_rpc/nrf_rpc.c:1292-1302 | that list holds exactly the registered nodes, each once |
| `Cleanup.CleanupCallsEachOnce` | nrf_rpc/nrf_rpc.c:1313-1320 | a cleanup pass calls each registered node with a handler exactly once and nothing else |

## Left out

- Deadlock freedom and liveness of stop: nested calls and stop take the cleanup mutex and a context mutex in opposite orders; `Progress.NoDeadlock` is about runs without stop.
- Matching of responses after a timeout, an abort or a failed send: a late response can then reach an outer wait or a reused context; the refinement assumes their absence.
- RPC calls from inside a response handler: in the engine a handler runs within the step that takes the response.
- Groups in the command path: the engine leaves group ids out of commands and responses and lets all groups of one side share one transport discipline and one decode event; `Binding.BindingAgreement` covers the ids, and one shared event only allows more wake-ups than one per group.
- Internal tasks in the command path: they also go through `nrf_rpc_os_thread_pool_send`; `Binding` and `Traffic` have them, `Progress` does not.
- Several receive threads per side.
- Payload bytes in the engine: a packet carries one value; `Codec` shows that headers survive the wire.
- CallPath.RpcThread.CtxReserve: requires a free context for a thread that has none, as `CtxAlloc` does.
- CallPath.RpcThread.CtxAlloc: waiting for a free context is not modelled, because `nrf_rpc_os_ctx_pool_reserve` belongs to the OS; a free one is required.
- Failures of OS initialisation calls in `nrf_rpc_setup`, transport initialisation and the timed wait of `nrf_rpc_bind`.
- Transmit buffers: allocation and sending are foreign transport calls; a send succeeds or fails.
- The decoder search loop of `handler_execute`: whether an id has a decoder is a parameter (`Traffic.Config`), which is all the other results depend on.
- Error reports to application handlers, logging and time measurement: they change no state of the protocol.
- `nrf_rpc/nrf_rpc_cbor.c` and all other libraries of the repository: thin wrappers or declarations for binaries.
