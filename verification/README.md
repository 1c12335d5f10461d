# agentd prompt pipeline, verified

`agentd` runs ACP agents in sandboxes. A prompt travels from a Temporal activity through a node and a
supervisor to an agent subprocess; the updates the agent emits travel back through a JSON-RPC reader,
per-run channels, a numbering loop, two stream hops and an event broker to the clients that listen.
This project models that pipeline and the parts around it in Dafny and proves what they guarantee.

`dafny verify dfyconfig.toml` checks everything.

## How the model is built

Concurrent stages are machines of atomic steps. A stage has a `State`, a `Step` for every atomic section
of the code (a section under a lock, a channel send, a close), a predicate `Enabled` and a function
`Next`; a step that is not enabled does not happen. `After(steps)` is the state after any list of steps,
so a statement about `After(steps)` for all `steps` is a statement about every interleaving. Panics
(a send on a closed channel, a second close) set `crashed`; a send that would block is not enabled.
Fields such as `sent`, `offered`, `depths`, `routed`, `begun`, `emitted`, `start`, `end`, `runWrites`
and `sessionWrites` are history: they record what happened and decide nothing.

Objects the code mutates are classes beside the machine. Each method changes the object's fields and is
proved equal to a step of the machine, or to a function of the old state. Loops are methods with
invariants, proved against functions whose properties are the lemmas.

| file | models |
|---|---|
| `Sequences.dfy` | filtering and order-preserving selection |
| `LossyChannel.dfy` | the 64-slot channel written to with a non-blocking send |
| `Control.dfy` | entities and transition tables |
| `AcpClient.dfy` | the JSON-RPC client over stdio; the correlation of section 5 of the JSON-RPC 2.0 Specification |
| `AgentRouting.dfy` | one agent's updates, routed to the prompts that wait for them |
| `PromptLoop.dfy` | the supervisor's prompt loop |
| `Relay.dfy` | the node and worker stream hops |
| `SessionBroker.dfy` | the in-memory event broker |
| `Pipeline.dfy` | the client, routing, prompt loop, hops and broker above as one machine |
| `EchoAgent.dfy` | the example agent, and the closed system it forms with the pipeline |
| `Activities.dfy` | metadata store, `Prompt` and `Cancel` activities, session workflow |
| `ActivityRaces.dfy` | overlapping `Prompt` and `Cancel` activities, one store call per step |
| `Environment.dfy` | layered environments and the list handed to a subprocess |
| `Bundles.dfy` | registry validation, bundle resolution and storage, plan compilation |
| `AgentRegistry.dfy` | the supervisor's agent and session tables |
| `Scheduler.dfy` | container placement and node ids |
| `ServerSentEvents.dfy` | the SSE frames, and the reader of sections 9.2.5 and 9.2.6 of the WHATWG HTML Living Standard |

## Assumptions

- `NewID` returns non-empty ids that were not used before.
- A gRPC stream delivers a prefix of what was sent, in order, and then an error.
- The memory store and the memory broker do not fail.
- SHA-256 over the JSON payload is a function parameter, assumed injective where a lemma says so.
- The scheduler's cursor is an unbounded natural number.
- JSON encodings of events are one line and not empty.

## What turned out not to hold in general

Each has a lemma with the exact condition and one with a concrete run or input.

- Two live prompts with one run id on one agent keeping their channels: `OwnChannelsExact`, `SharedRunIdPhantom`.
- A run that comes back without error being terminal: a cut between supervisor and node goes unreported,
  `SilentTruncationExact`, `TruncatedAfterChunk`.
- Subscribers seeing the publications of several publishers in the order they began: `PublicationOrderExact`,
  `ConcurrentPublishersCross`.
- Sessions obeying their transition table: `SessionHistoryExact`, `PromptAfterCancelIllegal`. The README of agentd calls transitions explicit;
  no code checks them.
- The workflow mirroring the store when a node refuses a cancel: `MirrorKeptExact`, `RefusedCancelDiverges`; and the
  active run id after a node error: `ActiveRunMirrorExact`, `NodeErrorDiverges`.
- A cancel staying in the session record when it overlaps a prompt, and not bringing back the id of a run that has
  ended: `CancelSurvivesExact`, `ActiveRunExact`, `LateCancelReinstates`.
- Sessions keeping their agent when calls overlap: `SessionsKeptExact`, `OverlapOrphansSession`, `OverlapOrphansOpening`.
- Reading back an environment list whose layer keys contain `=`, and merging it again: `MergeReadBackExact`,
  `MergeAgainExact`, `EqualsKeyIsMisread`.
- SSE round trips for event types that are empty or contain line breaks: `RoundTripExact`, `OddTypesAreLost`.
- Resolving an entry that lacks the payload of its distribution type: `PanicExact`, `ManualBinaryPanics`.

## Model

| member | source | states |
|---|---|---|
| `Control.RunTableByTarget` | control/state.go:40-47 | the run table read by target: which states each state can be entered from |
| `Control.SessionTableByTarget` | control/state.go:29-38 | the session table read by target |
| `Control.EndIsForever` | control/state.go:29-47 | in a legal history a run that has ended stays as it ended and an archived session stays archived |
| `LossyChannel.OfferValid` | runtime/supervisor/manager.go:305-310 | a non-blocking send keeps: at most 64 buffered, and taken plus buffered is exactly the offers that found room |
| `LossyChannel.TakeValid` | session/broker.go:47-54 | a receive keeps the same: what was taken and what is buffered is still exactly the offers that found room |
| `LossyChannel.Conservation` | session/broker.go:38-43 | taken plus buffered is an in-order, duplicate-free part of what was offered; taken + buffered + dropped is the number of offers |
| `LossyChannel.DroppedExact` | session/broker.go:39-42 | something was dropped if and only if some offer found 64 values queued |
| `LossyChannel.ShortHistoryKeepsAll` | runtime/supervisor/manager.go:288-309 | up to 64 offers in all, nothing is ever dropped |
| `AcpClient.InvAfter` | acp/stdio.go:137-212 | in every interleaving a call is registered, in the reader's hand or answered, and its channel's contents and closedness say which |
| `AcpClient.InvStep` | acp/stdio.go:137-212 | every single step of a caller, the reader or the drain keeps that invariant |
| `AcpClient.ReplySendsNeverBlock` | acp/stdio.go:137-212 | no run panics; each reply channel is sent to at most once; the reader and the drain can always send on it and close it at once; no caller finds its channel closed and empty |
| `AcpClient.RepliesCorrelate` | acp/stdio.go:149-186 | a call that returns from its channel got the only envelope sent on it, with its own id, read off the wire or made by the drain |
| `AcpClient.LeavesTableExact` | acp/stdio.go:141-151 | an entry leaves the table exactly when the reader takes its reply or the drain finishes with it; giving up leaves it behind |
| `AcpClient.StrayRepliesIgnored` | acp/stdio.go:176-186 | once a call has left the table, any later reply with its id changes nothing, for the rest of every run |
| `AcpClient.CallPersists` | acp/stdio.go:141-151 | over any further run a call keeps its id, and once out of the table it never comes back |
| `AcpClient.UnknownReplyIgnored` | acp/stdio.go:176-186 | a reply with an id not in the table changes nothing |
| `AcpClient.ReplyTouchesOneCall` | acp/stdio.go:176-184 | a reply removes its own entry and fills and closes its own channel; all other calls stay as they were |
| `AcpClient.TerminalError` | acp/stdio.go:172-175 | after a decode error every call then registered has exactly one reply, an error under its own id with code -32000 and "acp subprocess exited" at end of file or else the decoder's message; no other call got one, none is left registered, and later calls are never answered |
| `AcpClient.DrainTerminates` | acp/stdio.go:201-212 | while the drain holds the lock one of its steps is enabled, each shortens the work left, and callers cannot lengthen it |
| `AcpClient.NotifiedExact` | acp/stdio.go:187-197 | in every interleaving the handler has been given exactly the decodable updates decoded since it was set, in order and once each |
| `AcpClient.OnlyDecodeNotifies` | acp/stdio.go:176-197 | no reply, caller or drain step reaches the handler, and of what is decoded only the payload of a `session/update` that has no id and decodes |
| `AcpClient.StdioClient.constructor` | acp/stdio.go:67-79 | a new client has no calls, an idle reader and an empty table |
| `AcpClient.StdioClient.SetNotificationHandler` | acp/stdio.go:81-85 | sets the handler and nothing else; one step of the machine |
| `AcpClient.StdioClient.Begin` | acp/stdio.go:137-147 | registers a fresh call; one step of the machine |
| `AcpClient.StdioClient.Abandon` | acp/stdio.go:150-151 | the caller returns and the table is unchanged |
| `AcpClient.StdioClient.AwaitReply` | acp/stdio.go:152-165 | the receive always yields an envelope with the call's own id, never end of channel |
| `AcpClient.StdioClient.TakeEnvelope` | acp/stdio.go:176-197 | takes a reply out of the table, or hands an update to the handler; one step of the machine |
| `AcpClient.StdioClient.SendInHand` | acp/stdio.go:182 | the reply in hand goes to its own call's channel; one step of the machine |
| `AcpClient.StdioClient.CloseInHand` | acp/stdio.go:183 | that channel is closed after its one reply; one step of the machine |
| `AcpClient.StdioClient.ReadOne` | acp/stdio.go:171-198 | one envelope end to end is decode, send, close |
| `AcpClient.StdioClient.FailOne` | acp/stdio.go:207-211 | one entry is answered with an error under its id, code -32000 and the drain's message, closed and removed; no caller moves |
| `AcpClient.StdioClient.DrainAll` | acp/stdio.go:207-211 | the loop ends with an empty table, every entry it started with answered once |
| `AcpClient.StdioClient.FailAll` | acp/stdio.go:201-212 | empties the table; every registered call gets the one error reply with that code and message, no other call gets any, and no caller moves |
| `AgentRouting.RoutingNeverPanics` | runtime/supervisor/manager.go:285-311 | over every history, run ids shared or not, each table entry names an open channel of that run id, so no send hits a closed channel and none is closed twice |
| `AgentRouting.InvAfter` | runtime/supervisor/manager.go:285-311 | with distinct live run ids a prompt owns its table entry and an open channel exactly while it is live, and was offered exactly its own run's updates of that span |
| `AgentRouting.RoutingConserves` | runtime/supervisor/manager.go:285-311 | with distinct live run ids: no send on a closed channel, no phantom receive, and each prompt consumed and queued, in order, exactly those of its own run's updates since it subscribed whose own offer found fewer than 64 queued |
| `AgentRouting.SharedRunIdExact` | runtime/supervisor/manager.go:285-291 | starting a prompt keeps every live prompt on its own open channel if and only if its run id is not in use |
| `AgentRouting.OwnChannelsExact` | runtime/supervisor/manager.go:285-300 | over every history live prompts keep their own open channels throughout if and only if no prompt starts with a run id in use |
| `AgentRouting.SharedRunIdPhantom` | runtime/supervisor/manager.go:293-300 | with a shared run id, the first prompt's cleanup closes the second's channel, which then receives an update nobody sent |
| `AgentRouting.AgentHandle.constructor` | runtime/supervisor/manager.go:102 | a new handle has no streams |
| `AgentRouting.AgentHandle.Subscribe` | runtime/supervisor/manager.go:285-291 | a new channel under the run id; one step of the machine |
| `AgentRouting.AgentHandle.Unsubscribe` | runtime/supervisor/manager.go:293-300 | removes and closes the prompt's own channel; one step of the machine |
| `AgentRouting.AgentHandle.RouteEvent` | runtime/supervisor/manager.go:302-311 | offers the update to its run's channel and no other; one step of the machine |
| `PromptLoop.PromptGrammar` | runtime/supervisor/manager.go:176-225 | every stream is one final Failed item with the dispatch error, or items numbered 1, 2, ... of one run and session, final at most last and exactly when the run is terminal, with a state history the run table accepts; each item carries the kind, text, error and metadata of its update, and the final one is Cancelled or Failed exactly by that kind and otherwise Completed, with the update's error |
| `PromptLoop.StreamTells` | runtime/supervisor/manager.go:200-217 | item by item what the update says is what the event, the run and the item say |
| `PromptLoop.StreamGrammar` | runtime/supervisor/manager.go:194-224 | any list of updates with nothing after a final one becomes a stream of that grammar |
| `PromptLoop.RefusalGrammar` | runtime/supervisor/manager.go:188-193 | a refused dispatch is the one-item stream of that grammar, Failed and final |
| `PromptLoop.ConsumedFinalOnlyLast` | runtime/supervisor/manager.go:195-224 | the loop goes through the updates in order, never past a final one, and stops early only at a dead stream or a failed send |
| `PromptLoop.NumberUpdate` | runtime/supervisor/manager.go:200-217 | one round: the item tells the update, and the record carries over nothing but number and state |
| `PromptLoop.StreamUpdates` | runtime/supervisor/manager.go:194-224 | the stateful loop produces, for each update it gets through, the item that tells it, determined by the update and its position alone; it finishes exactly on a final item |
| `PromptLoop.Prompt` | runtime/supervisor/manager.go:176-225 | the whole call, with refused dispatch and generated run id, sends such a stream, every item with the prompt's run id, session, container, agent instance and input |
| `Relay.RunnerPrompt` | runtime/local/runner.go:190-208 | passes on typed events up to the first final item and returns its run, the last run seen on a broken stream, or the error |
| `Relay.NodePrompt` | runtime/local/server.go:65-73 | sends one frame per event and then the run, up to the first failed send |
| `Relay.WorkerPrompt` | runtime/client.go:86-109 | publishes typed events up to the first final frame and returns the last run record with an id |
| `Relay.ForwardedExact` | runtime/local/runner.go:199-206 | on any stream: what either loop passes on is the typed events up to the first final item |
| `Relay.TypedIsFiltered` | runtime/local/runner.go:199-202 | the typed events are those with a type, in order |
| `Relay.RunnerExact` | runtime/local/runner.go:190-208 | on any stream: the run of the first final item, else the last run seen if it has an id, else the error |
| `Relay.WorkerExact` | runtime/client.go:86-109 | on any stream: an error item without a run is that error, else the last run with an id up to the first final item, else the error |
| `Relay.RelayExact` | runtime/local/runner.go:181-209 | for every stream and pair of cuts: a run comes back if and only if the first hop delivered something and the second everything, and it is the last one delivered; what was published is a prefix of the typed events |
| `Relay.NodeFramesShape` | runtime/local/server.go:65-73 | the node sends the typed events in order and then the last run it saw |
| `Relay.WholeStreamIsIdentity` | runtime/client.go:81-110 | an uncut stream arrives as its typed events in order and its final run |
| `Relay.SilentTruncationExact` | runtime/local/runner.go:192-198 | a run that is not terminal is returned without error if and only if the first hop was cut after some item and before the final one and the second hop held; it is then Streaming |
| `Relay.TruncatedAfterChunk` | runtime/local/runner.go:192-198 | a chunk and a final update with the first hop cut after the chunk: the run comes back without error, Streaming |
| `SessionBroker.SubscriberSeesPublisherInOrder` | session/broker.go:35-61 | in every run where each cancel closure runs at most once: no send on a closed channel, registered exactly while open, at most 64 buffered, and each publisher's events to the session arrive in order and without duplicates |
| `SessionBroker.InvAfter` | session/broker.go:35-61 | in every such run what each publisher has offered, has under way and owes a subscriber is what it published to the session, in order |
| `SessionBroker.BrokerConserves` | session/broker.go:35-45 | over every run a subscriber was offered, or is still owed by publications under way, exactly the events published to its session while subscribed; received + buffered + dropped + owed is their number |
| `SessionBroker.PublicationOrderExact` | session/broker.go:35-45 | over every run a subscriber is offered its session's events in the order the publications began if and only if every offer to it was for the earliest publication then on its way to it |
| `SessionBroker.SequentialOrder` | session/broker.go:35-45 | in particular when publications do not overlap; what it received and buffered is then an in-order part of all of them |
| `SessionBroker.ConcurrentPublishersCross` | session/broker.go:36-43 | two overlapping publications can reach two subscribers in opposite orders |
| `SessionBroker.CancelOnceExact` | session/broker.go:55-60 | running a cancel closure is safe if and only if its channel is still open |
| `SessionBroker.MemoryBroker.constructor` | session/broker.go:31-33 | a new broker has no subscribers |
| `SessionBroker.MemoryBroker.Subscribe` | session/broker.go:47-54 | a new channel registered for the session; one step of the machine |
| `SessionBroker.MemoryBroker.Cancel` | session/broker.go:55-60 | unregisters and closes the channel; one step of the machine |
| `SessionBroker.OfferAll` | session/broker.go:38-43 | the loop offers the event once to each registered channel, in any order, and touches no other |
| `SessionBroker.InvPublish` | session/broker.go:35-45 | a publication offered to all registered channels keeps the broker invariant |
| `SessionBroker.MemoryBroker.Publish` | session/broker.go:35-45 | an uninterrupted publication reaches exactly the session's registered channels |
| `Pipeline.EndToEndOrder` | runtime/supervisor/manager.go:302-311 | over every interleaving with distinct live run ids, what a subscriber received and buffered of a prompt is an in-order, duplicate-free selection of the typed updates the agent wrote to its stdout for the run, each with the update's kind, text, error and metadata and increasing numbers |
| `Pipeline.SeenInOrder` | session/broker.go:35-45 | the same in terms of what a subscriber sees: told by run id and kind alone, when each run id is opened once and the control plane publishes only its own two kinds |
| `Pipeline.RoutedExact` | acp/stdio.go:187-197 | what reaches the routing table is, in order and once each, the decodable updates among the envelopes decoded since the handler was set, whatever replies, callers and the drain do meanwhile |
| `Pipeline.ClientIsRun` | acp/stdio.go:168-199 | the client inside the pipeline is the client after its own steps, and what it decoded followed by what is unread is what the agent wrote |
| `Pipeline.DeliveredExact` | session/broker.go:35-45 | in every state of every run and for every subscriber of the session: the updates written are those missed, routed before, during and after the prompt's subscription, and unread; the prompt took or queues exactly those of its run whose own offer found room; what the loop produced is what was published before the subscriber came, offered to it, owed to it, published after it left, and on the two hops (after a cut, the beginning of it); and the subscriber has exactly the events whose own offer found room |
| `Pipeline.MissingOnlyWhenFull` | workflows/activities.go:138-140 | update by update, in every state: a typed update offered to a prompt found 64 queued there, or still waits there, or is on a hop, owed to the subscriber, published before it came or after it left, lost to a cut, or was offered to the subscriber once and is missing exactly if that offer found 64 queued |
| `Pipeline.QuietExact` | workflows/activities.go:138-140 | once all is quiet, the typed updates that found room at the prompt are what was published before the subscriber came, offered to it, and published after it left |
| `Pipeline.InvAfter` | runtime/local/server.go:65-73 | published, then in flight on the second and the first hop, is exactly what the loop produced while both hops are up, and its beginning after a cut |
| `Pipeline.DrainSendsNodeFrames` | runtime/local/runner.go:191-208 | the node's step-by-step relay puts on the second hop exactly the frames of the relay loop |
| `EchoAgent.EchoEmits` | examples/echo-agent/main.go:102-127 | a prompt emits at most three updates, "echo:" and the prompt as chunks and then the completion with the prompt, or a cancellation in place of a chunk; none but the last final, final exactly when its goroutine is done, and cancelled only if a cancel for it came after its prompt and before that update |
| `EchoAgent.EchoRunSettles` | examples/echo-agent/main.go:102-137 | in every run of the closed system a finished, caught-up prompt lost no update and ends with its only final item, Completed, or Cancelled because a cancel came after the prompt and before the final update |
| `EchoAgent.EchoFinalSettles` | examples/echo-agent/main.go:111-127 | a prompt whose loop has taken a final update, live or not, has taken everything the agent emits for the run, with no drop, and settles the same way |
| `EchoAgent.EchoProgress` | examples/echo-agent/main.go:111-127 | while a run is under way and its loop has not taken a final update, the agent, the reader or the loop can take a step that leaves less to do |
| `EchoAgent.EchoReachesFinal` | examples/echo-agent/main.go:111-127 | from every such state some continuation brings the run to its final update |
| `EchoAgent.JointInvAfter` | examples/echo-agent/main.go:102-137 | in every run of the closed system what the pipeline saw emitted is what the agent wrote, and no update is older than the prompt it was dispatched for |
| `Activities.ReplyIsSettled` | runtime/client.go:103-107 | a run the node returns has the request's ids and input and the supervisor's container and agent, and has left Dispatching by a legal transition |
| `Activities.PromptPublishes` | workflows/activities.go:136-140 | a prompt publishes a prefix of its typed events, all of its own run and session |
| `Activities.PromptSettles` | workflows/activities.go:117-167 | with nobody else writing: the run is first written Dispatching with the request's input and the session's container and agent, then once more by a legal step as it is returned, which is the node's run or the dispatched one Failed with the node's error; the session is Failed exactly when the run is and otherwise WaitingInput, its active run kept only on a node error; the audit record names the run and its state; nothing else changes |
| `Activities.SessionHistoryExact` | control/state.go:29-38 | over every sequence of prompts and cancels the session states written obey the table if and only if the first write is allowed, no update follows a failed prompt and no prompt follows a cancel |
| `Activities.PromptAfterCancelIllegal` | control/state.go:29-38 | a prompt after a cancel on an Active session writes a history the table refuses |
| `Activities.WorkflowMirrorsStore` | workflows/workflows.go:157-191 | from creation on, after any sequence of updates with accepted cancels, the workflow's session state is the stored one |
| `Activities.MirrorExact` | workflows/workflows.go:181-189 | one update breaks the mirror if and only if it is a cancel the node refuses after the write, on a session not already Cancelling |
| `Activities.MirrorKeptExact` | workflows/workflows.go:157-191 | over every sequence of updates the workflow mirrors the store throughout if and only if no cancel is written and then refused on a session not already being cancelled |
| `Activities.LastRunIsStored` | workflows/workflows.go:169 | after any sequence of updates the last run the workflow reports is the stored record under its id |
| `Activities.ActiveRunMirrorExact` | workflows/workflows.go:169-170 | after a prompt the active run id is mirrored if and only if the node call did not error |
| `Activities.RefusedCancelDiverges` | workflows/workflows.go:181-189 | an Active session and a refused cancel: the store says Cancelling, the workflow Active |
| `Activities.NodeErrorDiverges` | workflows/activities.go:141-151 | a node error: the store keeps the run active, the workflow does not |
| `ActivityRaces.RecordExact` | workflows/activities.go:117-183 | over every interleaving of any prompts and cancels, store call by store call, a session record is fixed by the order of the session writes and by when each cancel read; only state and active run id ever change |
| `ActivityRaces.CancelSurvivesExact` | workflows/activities.go:169-183 | a session ends up Cancelling if and only if the last write to it is a cancel's, or there was none and it started so |
| `ActivityRaces.ActiveRunExact` | workflows/activities.go:131-162 | a run's id is stored as active if and only if the last write is the start or the errored end of its prompt, or a cancel that read while it was active |
| `ActivityRaces.RunSettlesAnyway` | workflows/activities.go:126-162 | whatever activities overlap, with fresh run ids: every prompt that finishes has one record under its run id, equal to the run it returns, no longer Dispatching, written exactly twice by a legal step, first with the input asked and the container and agent of the session, which never change; on a node error that record Failed with the error |
| `ActivityRaces.FinishAnswersPrompt` | workflows/activities.go:117-162 | every finish answers a prompt that was asked, with its run id, input and session |
| `ActivityRaces.SessionSettlesAlone` | workflows/activities.go:141-162 | when only activities of other sessions overlap, the session is Failed exactly if the run failed and otherwise waits for input, with the run id kept active exactly on a node error |
| `ActivityRaces.RunInvAfter` | workflows/activities.go:126-162 | in every interleaving the run record of a running prompt is as far as its own store calls |
| `ActivityRaces.LateCancelReinstates` | workflows/activities.go:170-180 | a cancel that reads during a prompt and writes after its last write leaves Cancelling with the finished run's id active again |
| `ActivityRaces.AloneIsPrompt` | workflows/activities.go:117-167 | without interference the single store calls add up to the whole prompt activity |
| `ActivityRaces.AloneIsCancel` | workflows/activities.go:169-183 | without interference the read and the write add up to the whole cancel activity |
| `ActivityRaces.InvAfter` | store/memory.go:154-159 | every running activity holds the record as it was after the writes before its read |
| `Activities.MemoryStore.UpsertSession` | store/memory.go:154-159 | writes the session under its id and nothing else |
| `Activities.MemoryStore.UpsertRun` | store/memory.go:183-188 | writes the run under its id and nothing else |
| `Activities.MemoryStore.AppendAudit` | store/memory.go:212-217 | appends one record and nothing else |
| `Activities.MemoryStore.Locate` | workflows/activities.go:224-245 | succeeds exactly when session and container are known and the container's node has a client or there is only one |
| `Activities.PromptActivities.Prompt` | workflows/activities.go:117-167 | errors without writing exactly when the session cannot be located; otherwise dispatches and returns those records under the given or generated run id, stored as returned |
| `Activities.PromptActivities.Cancel` | workflows/activities.go:169-183 | writes Cancelling before asking the node, whatever the node answers |
| `Activities.SessionWorkflow.constructor` | workflows/workflows.go:157-159 | starts from the session of its input and no run |
| `Activities.SessionWorkflow.OnPrompt` | workflows/workflows.go:163-178 | if the activity succeeded the last run is the stored one and the session follows its state with no active run; otherwise nothing changes |
| `Activities.SessionWorkflow.OnCancel` | workflows/workflows.go:181-189 | updates the workflow only if the activity succeeded |
| `Environment.MergeEnv` | runtime/supervisor/manager.go:322-342 | for any map iteration order, the list has one entry per key of base overlaid with the layers |
| `Environment.CopyInto` | runtime/supervisor/manager.go:332-336 | copying a layer in any key order overlays it |
| `Environment.RenderAll` | runtime/supervisor/manager.go:337-341 | one `key=value` entry per key, in any order |
| `Environment.ParseBase` | runtime/supervisor/manager.go:324-331 | splits each entry at its first equals sign, later entries winning and entries without one skipped |
| `Environment.MergeReadBackExact` | runtime/supervisor/manager.go:332-340 | the process reads back the merged map if and only if no layer key contains an equals sign |
| `Environment.ReadBackExact` | runtime/supervisor/manager.go:337-341 | a rendered map is read back unchanged if and only if no key contains an equals sign |
| `Environment.OneEntryPerKey` | runtime/supervisor/manager.go:337-341 | as many entries as keys |
| `Environment.OrderIrrelevant` | runtime/supervisor/manager.go:337-341 | iteration order only permutes the list |
| `Environment.MergeAgainExact` | runtime/supervisor/manager.go:322-342 | merging a merged list again gives the same entries if and only if no two keys agree before their first equals sign |
| `Environment.EqualsKeyIsMisread` | runtime/supervisor/manager.go:322-342 | a layer with keys `A` and `A=B` is read back as one variable |
| `Environment.InjectLLMProfileEnv` | control/plan.go:80-101 | every variable: a given API-key reference, else the profile's default, else provider, model and a given base URL |
| `Environment.PutUnlessEmpty` | control/plan.go:80-101 | sets a variable only when it has a value |
| `Environment.InjectionEnv` | control/plan.go:41-47 | agent defaults, under session variables, under the LLM profile's |
| `Environment.OverlayIsHighest` | runtime/supervisor/manager.go:332-336 | a merged value is that of the topmost layer defining the key |
| `Environment.HighestLayerWins` | control/plan.go:41-47 | every variable comes from the highest of the eight layers that defines it |
| `Environment.VariableComesFrom` | control/plan.go:41-47 | spelled out: what the LLM profile says, else the session's value, else the agent's default, else the bundle's, else the container profile's, else the inherited one |
| `Environment.ProcessReadsHighestLayer` | runtime/supervisor/manager.go:79 | the process reads from the merged list, for every name, the value of the highest of the eight layers if and only if no key of the three merged maps contains an equals sign |
| `Bundles.Parse` | registry/parser.go:14-40 | a document parses exactly when all agents are valid, to entries with everything of theirs in order; otherwise the first invalid agent's error |
| `Bundles.ValidExact` | registry/parser.go:50-77 | an agent is valid exactly when id and version are not blank and its distribution is of a known type with its payload: a URL that parses or a package name |
| `Bundles.MatchPlatform` | bundle/resolver.go:21-32 | no platforms listed, or one that is the requested platform in other case or with / or _ for - |
| `Bundles.NormalizeExact` | bundle/resolver.go:77-81 | normalising lowers ASCII letters and turns / and _ into -, position by position, and once is enough |
| `Bundles.SpellingsMatch` | bundle/resolver.go:21-32 | Linux/AMD64 and linux_amd64 match linux-amd64; a request that is not normalised itself is not matched |
| `Bundles.ResolveBundle` | bundle/resolver.go:17-75 | rejects exactly on platform mismatch or unknown type, panics exactly on a missing payload, and otherwise packs the entry: launcher words, package with @version if it has one, arguments; mode; variables; ids, platform and manifest |
| `Bundles.ResolvedPacks` | bundle/resolver.go:33-74 | every resolved bundle packs its entry under the digest of exactly what it is made from |
| `Bundles.ManualBinaryPanics` | api/server.go:330-339 | a manual binary agent without its payload, as the API accepts one, makes resolution panic |
| `Bundles.ParsedEntryResolves` | registry/parser.go:50-77 | a parsed entry fails exactly on platform mismatch and otherwise yields a bundle that packs it, with something to run |
| `Bundles.DigestDeterminesBundle` | bundle/resolver.go:62-74 | equal digests mean bundles equal in everything but creation time |
| `Bundles.StoredCameFromRequest` | store/memory.go:71-76 | every stored bundle is the resolution of some request, under its own digest |
| `Bundles.ResolvedIsStored` | workflows/activities.go:37-46 | every resolution has an entry under its digest |
| `Bundles.StoreIsContentAddressed` | workflows/activities.go:37-46 | after any sequence of resolutions each resolved bundle is still in the store under its digest, equal in everything but creation time |
| `Bundles.CompileExecutionPlan` | control/plan.go:20-67 | succeeds exactly when ids are set, terminal auth is not blocked and there is an entrypoint; states every defaulted field of the plan |
| `Bundles.CompileParsed` | control/plan.go:20-67 | a parsed agent compiles exactly when its platform matches and hosted mode does not block terminal auth, always with an entrypoint for the supervisor to index |
| `AgentRegistry.RegistryIsStable` | runtime/supervisor/manager.go:55-174 | with calls that do not overlap per key: instance ids unique, every session's agent found, and an installed agent never replaced |
| `AgentRegistry.StableFromStart` | runtime/supervisor/manager.go:55-174 | from the start: whatever is installed after any part of such a run is there at its end |
| `AgentRegistry.InvStep` | runtime/supervisor/manager.go:55-174 | each step keeps that and replaces no installed agent |
| `AgentRegistry.OverlapExact` | runtime/supervisor/manager.go:106-108 | one step loses the agent of a session, stored or being opened, if and only if it installs over an agent such a session runs on |
| `AgentRegistry.SessionsKeptExact` | runtime/supervisor/manager.go:55-174 | over every run, calls overlapping or not, sessions keep their agents throughout if and only if no step installs over an agent in use |
| `AgentRegistry.IdsAfter` | runtime/supervisor/manager.go:55-110 | in every run agents sit under their own keys and instance ids are distinct |
| `AgentRegistry.OverlapOrphansSession` | runtime/supervisor/manager.go:58-63 | two overlapping calls leave a session whose agent cannot be found |
| `AgentRegistry.OverlapOrphansOpening` | runtime/supervisor/manager.go:112-143 | the same with no session stored at the second install: the session call found the first instance and stores it afterwards |
| `AgentRegistry.AgentKeyInjective` | runtime/supervisor/manager.go:277 | keys over digests of one length never collide, whatever colons ids contain |
| `AgentRegistry.AgentKeyCollides` | runtime/supervisor/manager.go:277 | with digests of different lengths they can |
| `AgentRegistry.Manager.constructor` | runtime/supervisor/manager.go:42-53 | a new supervisor has no agents and no sessions |
| `AgentRegistry.Manager.AgentById` | runtime/supervisor/manager.go:255-264 | finds the one agent with the instance id, or nothing |
| `AgentRegistry.Manager.BeginEnsure` | runtime/supervisor/manager.go:56-63 | the first lock hold: the known instance, or a new one under way; one step of the machine |
| `AgentRegistry.Manager.FinishEnsure` | runtime/supervisor/manager.go:82-109 | the started agent goes into the table over whatever is there; one step of the machine |
| `AgentRegistry.Manager.EnsureAgent` | runtime/supervisor/manager.go:55-110 | the known instance under the key, else a new one, else nothing when it does not start; with digests of one length it is of the requested agent and digest |
| `AgentRegistry.Manager.BeginOpen` | runtime/supervisor/manager.go:113-116 | finds the agent under one lock hold; one step of the machine |
| `AgentRegistry.Manager.FinishOpen` | runtime/supervisor/manager.go:139-141 | stores the session under another, without looking again; one step of the machine |
| `AgentRegistry.Manager.OpenSession` | runtime/supervisor/manager.go:112-174 | a whole session call stores the session exactly when its agent is known and accepts it |
| `AgentRegistry.Manager.SessionAgent` | runtime/supervisor/manager.go:266-275 | finds the agent exactly when the session is stored and its agent is still installed |
| `Scheduler.RoundRobin.SelectPlacement` | scheduler/round_robin.go:19-50 | given placement, else the first container that is Ready or Idle, has room or no limit and is on the profile's node, else requested node, else the cursor's node; the cursor moves only in the last case |
| `Scheduler.PlaceAll` | scheduler/round_robin.go:45-49 | over any sequence of placements the cursor picks consecutive nodes and advances once per pick |
| `Scheduler.PicksRotate` | scheduler/round_robin.go:45-49 | pick number i of a run is node (start + i) modulo their number, whatever other calls lie between |
| `Scheduler.RotationCount` | scheduler/round_robin.go:45-49 | how often each node was picked after n picks |
| `Scheduler.CursorIsFair` | scheduler/round_robin.go:45-49 | after any sequence of placements the cursor's counts for two nodes differ by at most one |
| `Scheduler.EachNodeOncePerRound` | scheduler/round_robin.go:45-49 | any N consecutive cursor picks take each of N nodes once |
| `Scheduler.NodeIds` | runtime/discovery.go:28-35 | exactly the endpoint ids, sorted and distinct |
| `Scheduler.Insert` | runtime/discovery.go:33 | inserting keeps the list sorted and adds exactly one id |
| `Scheduler.SortedUnique` | runtime/discovery.go:28-35 | the list does not depend on map iteration order |
| `Scheduler.LessExact` | runtime/discovery.go:33 | the order is lexicographic |
| `ServerSentEvents.WriteFrames` | api/server.go:310-323 | the write loop prints the frames of the events in order |
| `ServerSentEvents.FormatIsFrame` | api/server.go:319 | the format string yields the three field lines and the blank line |
| `ServerSentEvents.ReadFrames` | api/server.go:319 | well-formed frames are dispatched one by one, whatever the last event id was |
| `ServerSentEvents.KindsAreOneLine` | api/server.go:319 | no stream makes a client dispatch an empty or multi-line type |
| `ServerSentEvents.RoundTripExact` | api/server.go:319 | for any sequence of events a client reads back exactly their ids, types and data if and only if every type is non-empty and free of line breaks |
| `ServerSentEvents.OddTypesAreLost` | api/server.go:319 | an empty type and a type with a line break are not read back |
| `ServerSentEvents.DecimalRoundTrip` | api/server.go:319 | the printed id names the sequence number |

## Left out

- Timestamps, except whether a run has its completion time; clocks are not modelled.
- Temporal retries, timeouts and `GCWorkflow`: an update handler is a step around one activity attempt.
- Postgres, Redis and filesystem stores, HTTP routing and status mapping, gRPC plumbing, subprocess handling, logging and metrics.
- Container and agent-instance transition tables: no code in the repository enforces them.
- `Runner.handleBySession`, `ParseNodeEndpoints`, catalogue and listing operations of the store: they would add easy members.
- Decoding of call results into typed responses in `StdioClient.call`: it is a function of the envelope the call received.
- AcpClient.StdioClient.SetNotificationHandler: records that a handler is set, not which; the supervisor sets one, once, before the first prompt.
- AcpClient.ReplySendsNeverBlock: is about channel sends and closes; the reader's wait for the lock, which a call holds while it encodes, is not modelled.
- Relay.WorkerPrompt: leaves out a failing publish callback, because the memory broker never fails.
- Activities.PromptActivities.Prompt: is the activity with nobody else writing; overlapping activities are the steps of `ActivityRaces`.
- Activities.PromptSettles: likewise; `RunSettlesAnyway` and `SessionSettlesAlone` are the statements for overlapping activities.
- Activities.PromptActivities.Cancel: is the activity with nobody else writing; overlapping activities are the steps of `ActivityRaces`.
- Activities.WorkflowMirrorsStore: takes the updates of a session one after the other; activities that overlap are the subject of `ActivityRaces`, without the workflow's copy.
- SessionBroker.MemoryBroker.Publish: states the publication that no other publisher interrupts; overlapping ones are the steps of the machine.
- Bundles.MatchPlatform: lower-casing of platform names covers ASCII letters only.
- Scheduler.NodeIds: the library sort is modelled as insertion, because only its result matters.
- The order of `run.started` before the events of its run: the pipeline takes the control plane's own events as publications of their own.
- Attachments and metadata of prompts are carried as opaque text.
