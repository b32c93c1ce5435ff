# EAnpTester command driver

A Dafny model of the command driver in etfake's `EAnpTester` class. The
driver holds a FIFO queue of ANP command messages (`CmdQueue`). When a
channel opens it sends the head of the queue as one outgoing query. It then
waits for that query's completion before it sends the next command. A
transport error stops dispatch. So does a result of type `Failure`, which is
reported with its failure kind and message. Any other result sends the next
command on the same channel. Peer-initiated queries that are still pending
get an `OK` reply with no elements.

The model is functional. `Tester.Driver` is an immutable record holding the
queue, the log of `SendCmd` calls, the in-flight queries per channel, the
subscribed channels, the replies sent and the `Tell` reports. Each handler is
one pure transition function. `Runs` feeds sequences of events through those
transitions and proves properties of whole runs.

Modules:

- `Anp` (anp.dfy): the `AnpMsg` envelope: a 32-bit type tag and typed
  elements, the `Add*` builders, and the typed element reads, which fail
  on an index out of range or an element of another kind.
- `Tester` (tester.dfy): driver state and the handlers `QueueCmd`,
  `ExecNextCmd`, `HandleChannelOpen`, `HandleOutcomingCompletion` and
  `HandleIncomingQuery`.
- `Runs` (runs.dfy): events, runs, kwmlib's delivery guarantees
  (`Enabled`), and the lemmas over runs.

The channel, query and broker objects come from kwmlib and kcslib, which are
not part of this model. What the driver learns from them is passed in as
values:

- a boolean for `c.IsOpen()`;
- a boolean for whether `SendCmd` returned a query (true) or null (false);
- an `Outcome` for a completion: `q.Ex` set, or a result message `q.Res`;
- a boolean for `q.IsPending()`.

The numeric values of `EAnpRes.OK` and `EAnpRes.Failure` are defined in
kwmlib, so they are a `Codes` parameter fixed when the driver is created.

A `Failure` result ends dispatch just as a transport error does:
`ExecNextCmd` runs only in the `else` branch (Program.cs:298-301).
`Runs.StopIsFinal` and `Runs.StopThenIdle` state this.

## Model

| member | source | states |
|---|---|---|
| Anp.AddElements | Program.cs:149-150 | the `Add*` calls on a message keep its type and append exactly the given elements, in call order, after the existing ones |
| Anp.ElementU32 | Program.cs:293 | reading element i as a 32-bit integer succeeds exactly when i is in range and that element is a 32-bit integer; the value read is the stored one |
| Anp.ElementString | Program.cs:294 | reading element i as a string succeeds exactly when i is in range and that element is a string; the value read is the stored one |
| Anp.FailurePayload | Program.cs:293-294 | a `Failure` payload can be read exactly when it has at least two elements, a 32-bit kind first and a string second; the kind and message read are the stored ones |
| Anp.AddThenRead | Program.cs:293-294 | an element appended to a message reads back, with the accessor of its own kind, at the old length, and every earlier element reads as before |
| Anp.FailurePayloadRoundTrip | Program.cs:293-295 | a message built with a kind and then a text always reads back as that kind and message, whatever elements follow |
| Tester.Init | Program.cs:113-115 | a new tester has an empty queue and has sent, replied and reported nothing |
| Tester.QueueCmd | Program.cs:210-216 | appends exactly one message, with the given type and no elements, at the tail; earlier commands keep their order and contents; nothing else changes |
| Tester.AddToLast | Program.cs:149-150 | the `Add*` calls on the message `QueueCmd` returned extend only the tail command; every other queued command is unchanged |
| Tester.ExecNextCmd | Program.cs:218-231 | on an empty queue it sends nothing, leaves the queue empty and reports that all commands ran; otherwise it removes exactly the head, sends that same message on the given channel and leaves the rest of the queue; only an accepted send puts a query in flight |
| Tester.HandleChannelOpen | Program.cs:239-248 | always reports the open; on a channel that is not open it subscribes nothing and sends nothing; on an open one it subscribes to it and runs exactly one `ExecNextCmd` on it |
| Tester.HandleOutcomingCompletion | Program.cs:279-309 | a transport error is reported and leaves the queue and the sends as they were; a `Failure` result reports its kind and message, or the exception when they cannot be read, and leaves the queue and the sends as they were; any other result runs exactly one `ExecNextCmd` on the same channel; in every case the completed query is no longer in flight |
| Tester.HandleIncomingQuery | Program.cs:257-267 | logs the query; a query that is no longer pending gets no reply; a pending one gets exactly one reply, of type `OK` with no elements; nothing else changes: not the queue, the sends, the queries in flight or the subscriptions |
| Runs.EnqueueAppends | Program.cs:210-216 | enqueuing a command appends exactly that message at the tail of the queue and changes nothing else |
| Runs.StepKeepsOrder | Program.cs:214-228 | each event keeps "sent commands followed by queued commands" unchanged, or extends it by exactly the command it enqueues |
| Runs.RunKeepsOrder | Program.cs:214-228 | over any run, the sent commands followed by the queued ones are exactly the enqueued commands in order: none is sent twice, none is skipped, none is reordered |
| Runs.SendsFollowEnqueueOrder | Program.cs:214-228 | from a new tester, the commands handed to `SendCmd` are a prefix of the enqueued commands |
| Runs.StepSendsAtMostOnce | Program.cs:226-228 | one event makes at most one `SendCmd` call, and only when it is an open channel or a completion that advances |
| Runs.RunSendBound | Program.cs:243-301 | over any run, the number of sends is at most the number of open channels announced plus the number of non-`Failure` results |
| Runs.StepKeepsSerial | Program.cs:228-230 | under kwmlib's delivery guarantees, one event never puts a second query in flight on a channel, nor a query on a channel the driver has not subscribed to |
| Runs.RunKeepsSerial | Program.cs:243-301 | under kwmlib's delivery guarantees, every state of a run has at most one query in flight per channel |
| Runs.AtMostOneInFlight | Program.cs:243-301 | from a new tester, at most one query is ever in flight on any channel |
| Runs.IdleStaysIdle | Program.cs:228-301 | once nothing is in flight, no event sends anything until a channel is announced open |
| Runs.StopIsFinal | Program.cs:285-301 | a transport error or a `Failure` result on the only query in flight sends nothing, leaves the queue unchanged and leaves nothing in flight |
| Runs.StopThenIdle | Program.cs:285-301 | after a transport error or a `Failure` result on the only query in flight, no later event sends a command until a new channel is announced open |
| Runs.RefusedIsDropped | Program.cs:226-230 | a command whose send returns null leaves the queue and is not put back, and gets no completion handler, so nothing is in flight afterwards |
| Runs.RefusedThenIdle | Program.cs:226-230 | after a send that returns null, no later event sends a command until a new channel is announced open, so the refused command is the last one sent |
| Runs.SuccessStep | Program.cs:218-301 | a non-`Failure` result for the only query in flight, with the send accepted, either reports that all commands ran and leaves nothing in flight (empty queue) or sends the head on the same channel, which is then the only query in flight |
| Runs.AllSucceed | Program.cs:218-301 | when every completion is a non-`Failure` result (any result messages, each its own), the queued commands are sent on the channel one at a time in queue order; after the last completion the queue is empty, nothing is in flight, and the last report is that all commands ran |
| Runs.TwoCommands | Program.cs:218-301 | with commands A then B queued, opening the channel sends A, and a non-`Failure` result for A sends B next without resending A; "all commands executed" has not been reported yet |
| Runs.LastSuccess | Program.cs:218-301 | a non-`Failure` result for the last command is reported, followed by the report that all commands ran |
| Runs.ExecKeepsOrder | Program.cs:226-228 | `ExecNextCmd` moves the head of the queue, if any, to the end of the sent log, so the sent commands followed by the queued ones are unchanged |
| Runs.ExecReportsDrained | Program.cs:220-227 | `ExecNextCmd` reports that all commands ran exactly when the queue is empty; earlier reports are kept |
| Runs.OpenReportsDrained | Program.cs:239-248 | a channel-open notification leads to the "all commands executed" report exactly when the channel is open and the queue is empty |
| Runs.CompletionReportsDrained | Program.cs:279-309 | a completion leads to the "all commands executed" report exactly when it is a non-`Failure` result and the queue is empty |
| Runs.DrainedReportedOnlyWhenEmpty | Program.cs:218-309 | an event reports that all commands ran exactly when it triggers `ExecNextCmd` and the queue is empty; earlier reports are kept |
| Runs.IncomingReplies | Program.cs:257-267 | an incoming query gets one reply, `OK` with no elements, if it is pending, and none otherwise |

## Left out

- The `Program` static class (`Main`, `AppInit`, `Bootstrap`, the console window, the message loop, the exception hooks): process and UI plumbing.
- Broker construction and start in `Setup`, and `HandleBrokerClosed` with its `TryStop` assertion: lifecycle of a kwmlib object whose behaviour is not part of this model.
- The command script in `Setup` (its `File.ReadAllText` and its disabled blocks): file I/O and dead code. Any script is covered as an arbitrary sequence of `Enqueue` events, each a `QueueCmd` followed by the `Add*` calls on the returned message.
- The internals of `EAnpChannel`, `EAnpOutgoingQuery`, `EAnpIncomingQuery`, `EAnpBroker` and the `AnpMsg` wire encoding: kwmlib and kcslib are not part of this model. Their results are inputs, and their delivery guarantees are the `Runs.Enabled` assumption.
- The text of `Tell` and its client/server prefix: reports are abstract tags carrying the values the text would show.
- `HandleIncomingEvent`, `HandleChannelClosed` and `OnQueryCancellation`: they only log. The subscription of `OnQueryCancellation` in `HandleIncomingQuery` is not tracked.
- Anp.ElementU32: an out-of-range index throws by the `List` indexer; that reading an element of another kind as a 32-bit integer throws is assumed of kwmlib's `AnpMsg` accessors, which are not part of this model.
- Anp.ElementString: likewise, that reading an element of another kind as a string throws is assumed of kwmlib's `AnpMsg` accessors.
- Tester.HandleOutcomingCompletion: the exception path covers only the two payload reads. Exceptions that kwmlib might raise elsewhere inside the `try` block are not modelled.
- UI-thread marshalling and concurrency: all notifications arrive one at a time, so a run is a plain sequence of events.
