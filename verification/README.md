# A verified model of VoiceClaw's stateful cores

VoiceClaw connects a phone or desktop voice client, through a relay, to realtime model providers and
to Desktop Hosts that run coding agents. This project models the parts of it that keep state across
callbacks, and proves what they guarantee over every run.

* **Host invocation gateway** (`harness_stream`, `host_wire_protocol`, `host_attempt`,
  `active_assignment`, `gateway*`, `relay_gateway`). Callers invoke operations on a Desktop Host;
  events and results come back on sockets that can be replaced, lost or fenced off by a
  reassignment. Each callback is one atomic step of a state machine over the three maps `hostSockets`, `attempts` and `resultAttempts`; the
  history of what every caller was given and answered is part of the state. The class `RelayGateway`
  updates the maps as the callbacks do and takes exactly those steps.
* **Server-side tool calls of a relay session** (`tool_calls`, `tool_call_theorems`,
  `tool_verdicts`, `relay_session`).
* **Voice pipeline with its completion stream** (`texts`, `voice_pipeline`, `voice_theorems`,
  `voice_losses`, `voice_restarts`, `pipeline_hook`), **direct Gemini transcript**
  (`direct_transcript`, `direct_turns`, `direct_call`), **24 to 16 kHz
  resampler** (`resampler`) and **transcript buffer** (`transcript_buffer`, `transcript_buffer_hook`).
* **Trace ingest** (`tables`, `trace_ingest`, `trace_theorems`, `trace_column_origins`,
  `trace_examples`, `tracing_collector`).
* **Incremental summarisation** (`compaction`), **plugin manifest** (`entry_path`, `plugin_manifest`,
  `manifest_round_trip`) and **message content** (`content_parts`, `content_images`).

Every component has the same shape: a state machine as functions on values, an invariant kept by each
step, theorems over all runs, and a class or method in the source's imperative form whose contract
equates its effect with the step. Histories (what was delivered, spoken, flushed, reported) are
fields of the state, so conservation is stated over whole runs.

## Where the code does less than one might expect

Each of these is proved: a run or an input that shows it, and the exact condition under which the
stronger statement holds.

* A host may number its public events with gaps. The stream fence accepts them, but the disconnect
  record asks for consecutive numbers and throws between recording the event and handing it to
  `onEvent`. The resolved stream therefore equals what the caller saw exactly when the public events
  are numbered 1, 2, 3, ... (`CompletedStreamsAreValid`, `GapIsNotDelivered`). This assumes that the
  process outlives the throw, an unhandled rejection for which relay-server installs no handler; in
  runs without such a throw every completed stream was delivered whole
  (`CompletedStreamsAreDelivered`).
* A selection computes its generation when it is called and stores it in a commit queued behind
  others (`active-assignment.ts` lines 75 to 85, `control-state-store.ts` lines 157 to 185). A commit
  keeps the binding's generation monotone, and a generation for one holder, exactly if it does not
  land a selection computed from what has been overtaken (`GenerationsFenceExactlyWhen`). Two
  reconnects queued before the selection's commit take a binding from 3 back to 2, and an attempt
  superseded at 3 delivers host output again (`SupersededAttemptSpeaksAgain`). Selections that are
  not called while a commit for their binding is waiting never do this (`SeparateSelectionsAreFresh`,
  `SelectionsApartAreFresh`).
* A one-shot result is fenced by (host, provider, workspace) and not by the call's binding. A stale
  result is accepted once another binding holds that tuple at the same generation
  (`StaleResultIsAccepted`); the fence is right exactly when no other binding comes first
  (`TupleFenceIsOwnFenceExactlyWhen`).
* Tool calls are tracked by call id. A reused id hides the older call from every abort, and its result
  is injected into the session that replaced its own (`ReusedIdEscapesReplacement`). Aborting reaches
  every running call in all states of a run exactly if no step of it takes, or by ending frees, the
  id of another running call (`AbortAllReachesExactly`, `AlwaysCoveredExactlyWhen`). File tools have
  no controller and answer whatever adapter is attached when they finish
  (`LateFileResultReachesNewAdapter`).
* `start()` in the middle of a turn wipes the sentence buffer (`StartMidTurnLosesText`). What was
  streamed in an answered turn has been spoken exactly if no `start()` met that turn with text in its
  buffer (`AnsweredTurnIsSpoken`).
* A speech start on a buffer with text and no pending flush drops that text
  (`EarlyFragmentIsLost`); a role's fragments are delivered exactly if no step of the run is such a
  start (`FragmentsAreDelivered`).
* Between requests the trace status is overwritten, although the comment in `otlp.ts` says that an
  error wins regardless of order; that holds within one request only (`TouchedStatus`,
  `StatusIsLastRequests`, `LaterRequestClearsError`). SQLite's two-argument MAX keeps a missing end
  time for good (`EndIsKnownExactlyWhen`, `LaterEndIsNotStored`).
* A compacted context covers each message once exactly if the stored summary it read was not made
  from more messages than the call was given (`ContextCoversExactlyWhen`); a call on the first five
  messages after a summary of twenty-one is not covered (`StaleCallIsNotCovered`).
* A normalised entry path can start like a drive letter (`./C:/x`), and is then refused when
  normalised again (`RenormalizingExactlyWhen`, `DotSlashKeeps`).

## Model

| member | source | states |
|---|---|---|
| HarnessStream.ParseHarnessExecutionStream | packages/contracts/src/harness-execution.ts:72-103 | the two loops and the index test decide, for any value, the declarative stream contract: well-formed events of one attempt, strictly increasing, exactly one terminal and it last |
| HarnessStream.AdjacentChecksCompareAll | packages/contracts/src/harness-execution.ts:81-95 | comparing each event with the first and its neighbour compares all pairs |
| HarnessStream.IndexTestIsOnlyLast | packages/contracts/src/harness-execution.ts:96-101 | the index list equals the last index alone exactly when only the last event is terminal |
| HarnessStream.ShapeCheckIsWellFormedness | packages/contracts/src/harness-execution.ts:120-163 | the encoding of an event is accepted exactly if the event is well formed, and decodes to it |
| HarnessStream.AcceptedIsEncoding | packages/contracts/src/harness-execution.ts:120-163 | every accepted value is the encoding of the event it decodes to |
| HarnessStream.IsValidStream | packages/contracts/src/harness-execution.ts:72-103 | the same decision on values that are events already |
| HarnessStream.FrameAdmitsWhen | relay-server/src/desktop-host/host-wire-protocol.ts:58-69 | completing one event to a stream admits exactly well-formed events with room for a successor |
| HostWireProtocol.ReadEventFrame | relay-server/src/desktop-host/host-wire-protocol.ts:44-70 | for every value: keys, version, type and event tests take exactly the frames of such events |
| HarnessStream.ParsedRequestIsEncoded | packages/contracts/src/harness-execution.ts:25-70 | a parsed request is valid and re-encodes to the payload it came from |
| HarnessStream.EncodedRequestParses | packages/contracts/src/harness-execution.ts:25-70 | every valid request survives encoding and parsing; the provider-neutral check never refuses one |
| HostAttempt.GenerationStreamFence.Accept | relay-server/src/plugin-kernel/generation-fence.ts:19-44 | refuses in the source's order and changes nothing then; otherwise takes the sequence number and the terminal mark |
| HostAttempt.AcceptorRefinesBatch | packages/contracts/src/harness-execution.ts:72-103 | feeding events one at a time through the fence ends in an accepted terminal exactly when the batch check accepts the whole stream of that attempt |
| HostAttempt.FeedCharacterised | relay-server/src/plugin-kernel/generation-fence.ts:19-44 | which sequences of events the fence takes one by one, and its state after them |
| HostAttempt.HostInvocationAttempt.MarkDispatched | relay-server/src/desktop-host/disconnect-outcome.ts:35-38 | marks a live attempt, refuses a closed one |
| HostAttempt.HostInvocationAttempt.AcceptPublicEvent | relay-server/src/desktop-host/disconnect-outcome.ts:40-55 | records exactly the next consecutive public event of the attempt, refuses all else unchanged, and keeps a live record live |
| HostAttempt.HostInvocationAttempt.Disconnect | relay-server/src/desktop-host/disconnect-outcome.ts:57-81 | closes at most once, with the stored input, the recorded events and one terminal, and no automatic recovery; cannot fail on a live record |
| HostAttempt.DisconnectIsValidStream | relay-server/src/desktop-host/disconnect-outcome.ts:57-81 | the closing outcome of a live attempt passes the batch check |
| ActiveAssignment.GenerationsFenceExactlyWhen | relay-server/src/desktop-host/active-assignment.ts:51-126 | a change keeps the binding, does not lower its generation and leaves the holder of an unchanged generation as it was, if and only if it is not the landing of a selection whose computed generation the stored one has reached |
| ActiveAssignment.SeparateSelectionsAreFresh | relay-server/src/plugin-kernel/control-state-store.ts:154-189 | while no selection is called with a commit for its binding waiting, every queued selection exceeds what will be stored when it lands, so none lands stale |
| ActiveAssignment.BindingsStayUnique | relay-server/src/desktop-host/active-assignment.ts:85-91 | every change keeps one record per binding |
| ActiveAssignment.HoldersWereSelected | relay-server/src/desktop-host/active-assignment.ts:51-94 | after any changes every holder stored or waiting to be was there to begin with or was selected, authorised, while its host was connected and reported ready |
| ActiveAssignment.ReadyHostsAreConnected | relay-server/src/desktop-host/active-assignment.ts:128-137 | after any changes only connected hosts count as ready |
| ActiveAssignment.FoundBindingIsOwn | relay-server/src/desktop-host/active-assignment.ts:139-163 | inspecting a binding returns that binding |
| ActiveAssignment.FoundTupleHolds | relay-server/src/desktop-host/active-assignment.ts:165-175 | finding by host, provider and workspace returns a stored record that holds all three |
| GatewaySteps.StepIsGood | relay-server/src/websocket-gateways.ts:95-646 | every callback keeps the gateway's invariant and only extends what callers have seen |
| GatewayAdmission.AdmittedExactlyWhen | relay-server/src/websocket-gateways.ts:195-385 | invoke adds an entry to one of the maps if and only if the envelope is valid, the payload is a request other than a cancellation, the caller is authorised and the contribution callable, the record found is ready and held as given, id and binding are free, the host's socket is open and the send succeeds; otherwise both maps stay as they are |
| GatewayAdmission.AnswerOnRecord | relay-server/src/websocket-gateways.ts:225-384 | for a request with a record to check it against: the first test that fails names the refusal, a turn whose host is out of reach is closed with one failed terminal, and an admitted one leaves exactly one entry and a waiting call |
| GatewayAdmission.RefusedWithoutRequest | relay-server/src/websocket-gateways.ts:201-224 | an invocation without a valid envelope and request is refused as such and changes nothing |
| GatewayAdmission.RefusedWithoutRecord | relay-server/src/websocket-gateways.ts:225-252 | a request for which no record is stored is refused, describe as stale and the others as unassigned |
| GatewayAdmission.LiveTurnsWereAdmitted | relay-server/src/websocket-gateways.ts:345-384 | over every run a live streamed attempt was stored by an earlier invocation, authorised and callable, that the state of that moment admitted |
| GatewayAdmission.WaitingCallsWereAdmitted | relay-server/src/websocket-gateways.ts:298-325 | so was every one-shot call that still waits |
| GatewayAdmission.CancelOnRecord | relay-server/src/websocket-gateways.ts:400-451 | a cancellation reaches the one attempt of the same host, principal, contribution and turn, if a ready record, the caller's rights, an open socket and the send allow it; otherwise the first test that fails names the refusal |
| GatewayAdmission.CancelWithoutRequest | relay-server/src/websocket-gateways.ts:392-399 | what does not parse as a cancellation is refused |
| GatewayTheorems.CompletedStreamsAreValid | relay-server/src/websocket-gateways.ts:577-646 | over every run, a stream resolved by a terminal event passes the batch check, was taken step by step, and was delivered up to the first gap plus the terminal; wholly exactly when numbered without gaps |
| GatewayAcceptance.EventIsTakenExactlyWhen | relay-server/src/websocket-gateways.ts:577-646 | an event of a live attempt is taken if and only if the binding's record still holds, it is of the attempt's own turn, lets itself be shown and is numbered above all recorded ones; otherwise the attempt is dropped with the first failing reason and the socket is no longer read |
| GatewayAcceptance.ResultIsTakenExactlyWhen | relay-server/src/websocket-gateways.ts:539-575 | a result resolves the call it names if and only if host, holder, generation and shape fit; otherwise the call is rejected and the socket is no longer read |
| GatewayAcceptance.LostHostClosesTurn | relay-server/src/websocket-gateways.ts:143-151 | over every run a lost host's streamed attempt is answered with what its caller was given and one terminal with the next number and outcome unknown |
| GatewayAcceptance.OpenSocketsAreCurrent | relay-server/src/websocket-gateways.ts:117-134 | over every run the only socket of a host still read is the last it connected |
| GatewayTheorems.DisconnectedStreamsAreDelivered | relay-server/src/websocket-gateways.ts:143-151 | a disconnect outcome is a valid stream and is exactly what was delivered |
| GatewayTheorems.AnsweredOnceAndFinal | relay-server/src/websocket-gateways.ts:303-384 | in every continuation a call has at most one answer, is unanswered exactly while its entry is in a map, and changes no more once answered |
| GatewayTheorems.AnsweringStepRemovesEntry | relay-server/src/websocket-gateways.ts:566-574 | the step that answers a call is the step that removes its entry |
| GatewayTheorems.AtMostOneLivePerBinding | relay-server/src/websocket-gateways.ts:267-297 | every reachable state has at most one live entry per binding and no id in both maps |
| GatewayTheorems.CancellationTargetIsUnique | relay-server/src/websocket-gateways.ts:431-434 | at most one attempt matches a cancellation, so map order does not matter |
| GatewayTheorems.NoOrphanedWait | relay-server/src/websocket-gateways.ts:298-302 | the host of every live entry has a registered socket |
| GatewayTheorems.ClosingAReplacedSocket | relay-server/src/websocket-gateways.ts:133-134 | closing a replaced socket changes no map and no caller |
| GatewayTheorems.ClosingASocket | relay-server/src/websocket-gateways.ts:133-159 | closing the current socket removes exactly its host's entries and answers each of their callers once |
| GatewayTheorems.StepsOfATurn | relay-server/src/websocket-gateways.ts:577-646 | every step leaves a live attempt alone, closes it for a disconnect, rejects it without output, or is fenced by the current assignment and delivers at most the one event of that step |
| GatewayTheorems.SupersededAttemptIsSilent | relay-server/src/websocket-gateways.ts:589-610 | once the binding has a higher generation, no later step gives the caller host output, in any run that lands no stale selection of the binding |
| GatewayTheorems.SelectionsApartAreFresh | relay-server/src/plugin-kernel/control-state-store.ts:154-189 | a run whose selections never overlap a waiting commit for their binding lands no stale selection |
| GatewayWholeStreams.CompletedStreamsAreDelivered | relay-server/src/websocket-gateways.ts:626-646 | in a run in which no public event makes the disconnect record throw, every caller answered with a completed stream was given all of it |
| GatewayResultFence.TupleFenceIsOwnFenceExactlyWhen | relay-server/src/websocket-gateways.ts:546-571 | the lookup by host, provider and workspace implies the call's own binding is still fenced in, whatever the generations, if and only if no other binding comes first |
| GatewayResultFence.OwnFenceSufficesWhen | relay-server/src/websocket-gateways.ts:546-571 | without a foreign holder, a result of a binding still fenced in is not refused by the lookup |
| GatewayResultFence.SupersededResultIsSilent | relay-server/src/websocket-gateways.ts:546-571 | starting from one record per binding, a superseded one-shot call never resolves with a result, in any run without a foreign holder and without a stale selection of its binding |
| GatewayExamples.GapIsNotDelivered | relay-server/src/websocket-gateways.ts:639-645 | a reachable state, of a process that outlives the unhandled rejection, in which a resolved stream holds an event its caller was never given |
| GatewayExamples.SupersededAttemptSpeaksAgain | relay-server/src/desktop-host/active-assignment.ts:75-91 | a reachable state and two steps in which a stale selection lands and a superseded attempt's event reaches its caller |
| GatewayExamples.StaleResultIsAccepted | relay-server/src/websocket-gateways.ts:546-574 | a reachable state and frame in which a superseded call resolves with its old host's result |
| RelayGatewayCallbacks.RelayGateway.Invoke | relay-server/src/websocket-gateways.ts:195-385 | takes the invoke step: refusal, undispatched closing, or storing one entry; the answer returned is the one recorded |
| RelayGatewayCallbacks.RelayGateway.CarryOut | relay-server/src/websocket-gateways.ts:298-384 | what follows each admission decision |
| RelayGatewayCallbacks.RelayGateway.DecideCancel | relay-server/src/websocket-gateways.ts:392-451 | taking any match gives the one verdict there is |
| RelayGatewayCallbacks.RelayGateway.AcceptEvent | relay-server/src/websocket-gateways.ts:577-646 | takes the event step, with the record made before the numbering check |
| RelayGatewayCallbacks.RelayGateway.AcceptResult | relay-server/src/websocket-gateways.ts:539-575 | takes the result step |
| RelayGatewayCallbacks.RelayGateway.Closed | relay-server/src/websocket-gateways.ts:133-159 | the two sweeping loops together are the close step; a replaced socket sweeps nothing |
| RelayGatewayCallbacks.RelayGateway.SweepTurns | relay-server/src/websocket-gateways.ts:143-151 | the first loop settles exactly the lost host's streamed attempts |
| RelayGatewayCallbacks.RelayGateway.SweepResults | relay-server/src/websocket-gateways.ts:152-156 | the second loop rejects exactly the lost host's one-shot calls |
| ToolCalls.StepIsGood | relay-server/src/session.ts:198-875 | every dispatch, settling and abort keeps each call's account sound and takes back nothing it did |
| ToolCalls.SettledJobIsSound | relay-server/src/session.ts:305-340 | settling adds the one verdict, and the one answer if it is still owed; an aborted call gets the cancelled verdict and no context |
| ToolVerdicts.VerdictFollowsEnding | relay-server/src/session.ts:305-341 | over every run a call that ended and was not aborted is reported completed if and only if its promise resolved without an error, for a search resolved at all, and failed otherwise; an aborted one neither |
| ToolVerdicts.AnswerFollowsEnding | relay-server/src/session.ts:519-600 | over every run which adapter gets the tool result and which the context |
| ToolVerdicts.ReplyFollowsEnding | relay-server/src/session.ts:1131-1169 | tool.exec gets one reply, successful if and only if the call resolved without an error and was not aborted |
| ToolVerdicts.SettledByAStep | relay-server/src/session.ts:198-866 | every settled call was over at its dispatch or ended by one step |
| ToolVerdicts.DispatchOutcome | relay-server/src/session.ts:198-259 | which calls run after dispatch, which fail, crash or complete at once, and which do nothing |
| ToolVerdicts.AbortedExactlyWhen | relay-server/src/session.ts:868-875 | a step aborts exactly the calls entered under their id when it cancels that id, replaces the session or ends it |
| ToolCallTheorems.AnsweredAndReportedOnce | relay-server/src/session.ts:198-866 | in every run a call sends at most one tool result and one verdict; a settled one exactly one each, with the exact exceptions; cancelled exactly for aborted calls |
| ToolCallTheorems.CallsOnlyGrow | relay-server/src/session.ts:198-866 | a call keeps what it did, and a settled call does nothing more |
| ToolCallTheorems.AbortedCallsStaySilent | relay-server/src/session.ts:868-875 | an aborted call is never reported completed, injects no context and replies no success, also after the session is replaced |
| ToolCallTheorems.AbortAllReachesExactly | relay-server/src/session.ts:1404-1412 | aborting everything aborts every running controlled call if and only if each is the one entered under its call id |
| ToolCallTheorems.StepCoversExactlyWhen | relay-server/src/session.ts:290-340 | a step leaves every running controlled call entered under its id if and only if it does not take, or free by ending, the id of another one |
| ToolCallTheorems.AlwaysCoveredExactlyWhen | relay-server/src/session.ts:290-340 | so in all states of a run if and only if none of its steps does |
| ToolCallTheorems.RunStaysExclusive | relay-server/src/session.ts:290-340 | while no call takes the id of a running one, every running controlled call is the one entered under its id |
| ToolCallTheorems.ReplacementSilencesEverything | relay-server/src/session.ts:1172-1195 | when every running controlled call is entered under its id, replacing the session silences all of them for good |
| ToolCallTheorems.ReusedIdEscapesReplacement | relay-server/src/session.ts:1404-1412 | with a reused id the older call survives the replacement and injects into the new adapter |
| ToolCallTheorems.LateFileResultReachesNewAdapter | relay-server/src/session.ts:571-677 | a file tool started on one adapter answers on the next |
| RelaySessions.RelaySession.HandleServerToolCall | relay-server/src/session.ts:198-219 | routes the call as the dispatch step says |
| RelaySessions.RelaySession.HandleBlockingTool | relay-server/src/session.ts:221-243 | the blocking executors, and none for other tools |
| RelaySessions.RelaySession.HandleAsyncTool | relay-server/src/session.ts:245-259 | the asynchronous executors, and none for other tools |
| RelaySessions.RelaySession.RunWebSearch | relay-server/src/session.ts:261-291 | no key: an answer without a verdict; bad arguments: a failure; otherwise the call starts |
| RelaySessions.RelaySession.RunAskBrain | relay-server/src/session.ts:343-366 | registers the controller first and removes the id again on bad arguments |
| RelaySessions.RelaySession.RunFileTool | relay-server/src/session.ts:571-588 | bad JSON is refused, the literal null escapes unanswered, all else starts without a controller |
| RelaySessions.RelaySession.HandleStandaloneToolExec | relay-server/src/session.ts:1092-1117 | an empty call id or an unknown tool gets an error reply at once; otherwise the call is entered under its id |
| RelaySessions.RelaySession.Settled | relay-server/src/session.ts:305-340 | the promise handler of each executor, then the removal of the id, are the settle step |
| RelaySessions.RelaySession.BlockingSettled | relay-server/src/session.ts:306-341 | verdict and answer of a blocking call |
| RelaySessions.RelaySession.AsyncSettled | relay-server/src/session.ts:519-568 | verdict of an asynchronous call, and context only if it was not aborted |
| RelaySessions.RelaySession.FileToolDone | relay-server/src/session.ts:588-600 | verdict and answer of a file tool |
| RelaySessions.RelaySession.StandaloneSettled | relay-server/src/session.ts:1131-1169 | the reply to tool.exec |
| RelaySessions.RelaySession.HandleToolCancelled | relay-server/src/session.ts:868-875 | the loop aborts exactly the running calls entered under the given ids |
| RelaySessions.RelaySession.AbortAllInFlightTools | relay-server/src/session.ts:1404-1412 | the loop aborts exactly the entered calls and clears the map |
| RelaySessions.RelaySession.ReplaceSession | relay-server/src/session.ts:1178-1195 | aborts and drops the adapter when there is one |
| VoiceTheorems.SpokenTextIsConserved | mobile/lib/use-pipeline.ts:85-119 | in every reachable state the spoken or wiped text of the turn, then the buffer, is the streamed text without white space; the buffer holds no finished sentence; every spoken text is non-empty and trimmed |
| VoiceTheorems.WholeTurnIsSpoken | mobile/lib/use-pipeline.ts:153-187 | a turn that streams undisturbed to its end speaks exactly what was streamed, however cut into messages and whatever speech events and other turns' callbacks come in between |
| VoiceLosses.AnsweredTurnIsSpoken | mobile/lib/use-pipeline.ts:169-187 | after the answer the buffer is empty, and what was spoken is what was streamed if and only if no start() of the run met the turn with text in its buffer |
| VoiceLosses.WipedNothingExactlyWhen | mobile/lib/use-pipeline.ts:219-223 | while the turn's stream has not failed, nothing was wiped in it if and only if no such start() happened |
| VoiceLosses.ChunkingDoesNotMatter | mobile/lib/chat.ts:107-135 | two such runs that streamed the same text spoke the same text |
| VoiceLosses.StartMidTurnLosesText | mobile/lib/use-pipeline.ts:219-223 | a run from the initial state whose streamed text is never spoken |
| VoiceTheorems.WipedOnlyOnStartOrFailure | mobile/lib/use-pipeline.ts:67-83 | within a turn only start() or a failed stream wipes text |
| VoiceTheorems.StartLosesTheBuffer | mobile/lib/use-pipeline.ts:219-223 | start() wipes exactly the buffer and speaks nothing |
| VoiceTheorems.RestartsAtMostOncePerTurn | mobile/lib/use-pipeline.ts:67-83 | at most one restart of the recogniser per turn, and only after that turn's stream has delivered its end |
| VoiceTheorems.RestartOnlyWhenReady | mobile/lib/use-pipeline.ts:69-75 | a restart happens only when active with nothing pending |
| VoiceRestarts.CompleteTurnsWait | mobile/lib/use-pipeline.ts:67-83 | in every reachable state an active pipeline whose turn is complete has speech pending |
| VoiceRestarts.RestartsExactlyWhen | mobile/lib/use-pipeline.ts:169-316 | the recogniser is restarted, once, by exactly the step that ends the last pending utterance of a complete turn, or ends the completion when nothing is pending or left to speak |
| VoiceRestarts.PendingIsOutstanding | mobile/lib/use-pipeline.ts:85-91 | over every run the pending count is the utterances spoken since the turn opened or was reset less those ended since, never below zero |
| VoiceRestarts.StopperIsLastBegun | mobile/lib/use-pipeline.ts:121-150 | over every run the completion to stop is the one begun last since the turn was last superseded |
| VoiceRestarts.SupersedingStops | mobile/lib/use-pipeline.ts:252-256 | superseding a turn closes that completion and no other |
| VoiceRestarts.ClosedStreamsStaySilent | mobile/lib/chat.ts:107-148 | a completion closed before its end delivers nothing more |
| VoiceTheorems.StaleCallbacksChangeNothing | mobile/lib/use-pipeline.ts:153-194 | token, done and error callbacks of a superseded turn leave the pipeline as it is |
| VoiceTheorems.TurnsNeverReturn | mobile/lib/use-pipeline.ts:121-123 | turn ids never decrease and a turn left is never current again |
| VoiceTheorems.TurnNeverDecreases | mobile/lib/use-pipeline.ts:252-353 | which steps advance the turn id |
| VoiceTheorems.EndsAtMostOnce | mobile/lib/chat.ts:107-146 | a completion delivers its end at most once and its text is final then |
| PipelineHook.PipelineRefs.TrySpeakCompleteSentences | mobile/lib/use-pipeline.ts:101-119 | speaks everything up to the last sentence ending and keeps the rest |
| PipelineHook.PipelineRefs.LastEndingIndex | mobile/lib/use-pipeline.ts:104-110 | the backward scan finds the last sentence ending |
| PipelineHook.PipelineRefs.RestartSTTIfReady | mobile/lib/use-pipeline.ts:67-83 | the restart step |
| PipelineHook.PipelineRefs.OnTokenReceived | mobile/lib/use-pipeline.ts:153-168 | appends only the new characters, for the current turn only |
| PipelineHook.PipelineRefs.OnCompletionDone | mobile/lib/use-pipeline.ts:169-187 | completes, flushes and restarts if ready |
| PipelineHook.StreamListeners.OnMessage | mobile/lib/chat.ts:129-135 | a delta is appended and the whole text so far reported |
| PipelineHook.StreamListeners.OnDoneMessage | mobile/lib/chat.ts:111-127 | finishes once: with the text, or by asking for the fallback when the text is blank |
| DirectTranscript.TranscriptIsConserved | mobile/lib/use-direct-gemini.ts:210-259 | over every run the role-tagged deltas are the role-tagged finished texts in order, without the mark of an interruption, then the buffer; at most one buffer is non-empty |
| DirectTranscript.EndedTurnIsSettled | mobile/lib/use-direct-gemini.ts:237-259 | after a completed or interrupted turn everything that arrived has been handed on |
| DirectTurns.MessageTally | mobile/lib/use-direct-gemini.ts:220-259 | a message starts a turn, ends one, or cuts a reply off exactly when it brings new words of the user, completes the turn, or interrupts an unfinished reply |
| DirectTurns.InterruptionIsMarked | mobile/lib/use-direct-gemini.ts:250-259 | the interrupted reply is handed on last, with the mark behind it |
| DirectTurns.SpeakerFollowsMessages | mobile/lib/use-direct-gemini.ts:210-246 | over every run whether the user counts as speaking follows from the messages |
| DirectTranscript.GateFollowsSpeech | mobile/lib/use-direct-gemini.ts:187-208 | the microphone gate is closed after a message exactly if it brought audio, or was closed and the message did not end the speech |
| DirectTranscript.OpenGateDropsNothing | mobile/lib/use-direct-gemini.ts:99-106 | frames are counted as dropped only since the gate last closed |
| DirectCalls.DirectCall.HandleServerContent | mobile/lib/use-direct-gemini.ts:184-260 | takes the message step |
| DirectCalls.DirectCall.OnAudioCaptured | mobile/lib/use-direct-gemini.ts:99-106 | a frame is sent exactly when the gate is open |
| Resampler.Downsample24To16 | mobile/lib/use-direct-gemini.ts:661-684 | for every input length, in bounds, floor(2n/3) samples, equal to the integer form |
| Resampler.Interpolate | mobile/lib/use-direct-gemini.ts:672-680 | one interpolated sample is the integer form; clamp and missing neighbour never occur |
| Resampler.DownAt | mobile/lib/use-direct-gemini.ts:671-681 | each output index of the triple-by-triple form: the first sample kept, the half-up average of the other two |
| Resampler.BetweenSources | mobile/lib/use-direct-gemini.ts:675-679 | both source samples exist and every output lies between them |
| Resampler.DownsampleSplits | mobile/lib/use-direct-gemini.ts:661-684 | resampling a concatenation is concatenating, when the first part is a multiple of three samples |
| Resampler.PositionIsExact | mobile/lib/use-direct-gemini.ts:672-674 | position and fraction of every output |
| Resampler.OutputSamplesIsTwoThirds | mobile/lib/use-direct-gemini.ts:664 | the length computed is floor(2n/3) |
| TranscriptBuffer.OneTimerPerRole | mobile/lib/use-transcript-buffer.ts:52-130 | in every reachable state a role has at most one live timer and it is the one in pendingFlush |
| TranscriptBuffer.TimerExactlyWhileAwaited | mobile/lib/use-transcript-buffer.ts:75-130 | over every run a role has a live timer exactly while its speech has ended and nothing since has flushed or cleared it or begun the next |
| TranscriptBuffer.WaitStartsAnew | mobile/lib/use-transcript-buffer.ts:97-111 | a late transcript or another end of speech replaces the timer |
| TranscriptBuffer.FiringDelivers | mobile/lib/use-transcript-buffer.ts:52-73 | a firing timer hands on the role's trimmed text, if any, and leaves nothing of it |
| TranscriptBuffer.FragmentsAreDelivered | mobile/lib/use-transcript-buffer.ts:52-130 | over every run a role's fragments are what was flushed or returned, then its buffer, white space aside, if and only if no step is a speech start on its non-blank buffer with no pending flush |
| TranscriptBuffer.LostGrowsExactly | mobile/lib/use-transcript-buffer.ts:75-83 | such a start loses exactly what the buffer held, and no other step loses anything |
| TranscriptBuffer.EarlyFragmentIsLost | mobile/lib/use-transcript-buffer.ts:75-102 | a run of two steps that loses its one fragment |
| TranscriptBuffer.FlushAllLeavesNothing | mobile/lib/use-transcript-buffer.ts:113-130 | after flushAll no text and no live timer remain |
| TranscriptBufferHook.TranscriptBuffers.Flush | mobile/lib/use-transcript-buffer.ts:52-73 | the flush step |
| TranscriptBufferHook.TranscriptBuffers.OnSpeechStart | mobile/lib/use-transcript-buffer.ts:75-83 | flushes a pending role, then resets its buffer |
| TranscriptBufferHook.TranscriptBuffers.OnTranscriptFinal | mobile/lib/use-transcript-buffer.ts:85-102 | appends with a separator and restarts a pending timer |
| TranscriptBufferHook.TranscriptBuffers.FlushEverything | mobile/lib/use-transcript-buffer.ts:113-130 | clears every timer and returns exactly what it logs, in the order the buffers were entered |
| Tables.UpsertedRow | tracing-collector/src/db.ts:238-266 | a row after any number of upserts: insert-only columns from the first, the others merged in order |
| Tables.UpsertTwice | tracing-collector/src/db.ts:223-266 | making the same writes again changes nothing, from any table and with repeated keys |
| TraceTheorems.TraceMerges | tracing-collector/src/db.ts:190-199 | the SET clause of traces, with MIN and MAX null when an argument is, is associative and idempotent |
| TraceTheorems.IngestIsIdempotent | tracing-collector/src/otlp.ts:55-172 | ingesting a request twice leaves every trace, observation and media row as once, from any database |
| TraceColumnOrigins.StoredObservationsHold | tracing-collector/src/db.ts:238-266 | over all requests an observation has the insert-only columns of its span's first item and in each other column the value of the last item that supplies one |
| TraceColumnOrigins.StoredTracesHold | tracing-collector/src/otlp.ts:142-160 | in each column that spans supply, the first value within a request and the last request between them win |
| TraceColumnOrigins.MediaHold | tracing-collector/src/db.ts:209-233 | a medium written again keeps, column by column, what the new write leaves out, and its creation time |
| TraceTheorems.TouchedSummarises | tracing-collector/src/otlp.ts:142-164 | within a request the trace row has the earliest start, the latest end and values some span supplies |
| TraceTheorems.StoredRowSummarises | tracing-collector/src/otlp.ts:169-171 | so has the stored row over all requests, when spans carry both times |
| TraceTheorems.OrderAndSplitDoNotMatter | tracing-collector/src/otlp.ts:142-171 | with both times on every span and agreeing values, the stored row but for its status does not depend on span order, split into requests, or resending |
| TraceTheorems.OneRootAgrees | tracing-collector/src/otlp.ts:143-160 | at most one root per trace makes name, input and output agree |
| TraceTheorems.TouchedStatus | tracing-collector/src/otlp.ts:144-146 | within a request the status is error if and only if some span of the trace is an error |
| TraceTheorems.StatusIsLastRequests | tracing-collector/src/db.ts:199 | between requests the last request touching the trace decides |
| TraceExamples.LaterRequestClearsError | tracing-collector/src/db.ts:199 | two requests, the first with an error span, that store the status ok |
| TraceTheorems.EndIsKnownExactlyWhen | tracing-collector/src/db.ts:195 | the stored end is known if and only if every request that touched the trace brought one |
| TraceExamples.LaterEndIsNotStored | tracing-collector/src/db.ts:195 | two requests of which the second brings an end that is not stored |
| TracingCollector.TracingDb.Ingest | tracing-collector/src/otlp.ts:55-172 | the nested loops and the final loop over touched traces are the ingest function |
| TracingCollector.TracingDb.UpsertTrace | tracing-collector/src/db.ts:187-200 | inserts or merges one row |
| TracingCollector.TracingDb.UpsertObservation | tracing-collector/src/db.ts:241-266 | inserts or merges one row, insert-only columns kept |
| TracingCollector.TracingDb.UpsertMedia | tracing-collector/src/db.ts:214-233 | inserts or merges one row, created_at kept |
| TracingCollector.TracingDb.WriteTraces | tracing-collector/src/otlp.ts:169-171 | the order of the touched traces does not matter |
| TracingCollector.ExtractMediaRows | tracing-collector/src/otlp.ts:275-380 | one row per medium present, in order |
| Compaction.StoredSummariesAreFaithful | mobile/lib/compact.ts:16-52 | however calls interleave and fail, a stored summary with count n has absorbed exactly messages [0, n-10), once and in order, as one made from scratch |
| Compaction.StoredTextIsTheReply | mobile/lib/compact.ts:73-111 | over every run each stored row says what the model replied in the step that stored it, the fixed text exactly for an empty reply, and the context returned then holds it |
| Compaction.ContextsComeFromRows | mobile/lib/compact.ts:16-71 | every summary handed to the model is that of the row read or of a row stored |
| Compaction.RequestsExactlyWhen | mobile/lib/compact.ts:18-44 | a summary is asked for if and only if there are more than twenty messages and the stored one is older |
| Compaction.ContextCoversExactlyWhen | mobile/lib/compact.ts:16-71 | a returned context covers every message once if and only if the summary read was not ahead of the messages given |
| Compaction.StaleCallIsNotCovered | mobile/lib/compact.ts:16-71 | a reachable state with a context that does not cover the five messages it was asked for |
| Compaction.WholeConversationIsCovered | mobile/lib/compact.ts:16-71 | so every context does when each call gets the whole conversation of its moment |
| Compaction.GeneratedIsFaithful | mobile/lib/compact.ts:30-47 | the incremental window extends what the old summary absorbed without gap or overlap |
| Compaction.SummaryStore.CompactMessages | mobile/lib/compact.ts:9-53 | one call follows its plan, stores at most one row, whose summary says what the model replied and is returned with the last messages; a failing read rejects a short conversation and sends a long one in full, a failing request or save stores nothing |
| Compaction.SummaryStore.GetSummary | mobile/db/summaries.ts:11-16 | returns a newest row, if there is one |
| EntryPath.NormalizeEntry | packages/contracts/src/plugin-manifest.ts:74-91 | the loop with its stack computes the resolved path |
| EntryPath.AcceptedExactlyWhen | packages/contracts/src/plugin-manifest.ts:74-91 | a path is accepted if and only if it is not empty or absolute, has no backslash and no drive letter, and its running depth never drops below zero and ends positive |
| EntryPath.NormalizedIsClean | packages/contracts/src/plugin-manifest.ts:80-90 | the segments of the result are the resolved stack: no empty, dot or dot-dot segment |
| EntryPath.RenormalizingExactlyWhen | packages/contracts/src/plugin-manifest.ts:78 | normalising again is the identity if and only if the result does not start like a drive letter; otherwise it is refused |
| EntryPath.DotSlashKeeps | packages/contracts/src/plugin-manifest.ts:78-90 | every clean path, drive letters included, is the result for itself behind a dot segment |
| PluginManifest.NoErrorsExactlyWhenValid | packages/contracts/src/plugin-manifest.ts:93-237 | the list of reported errors is empty if and only if the declarative validity of the manifest holds |
| PluginManifest.ParsedContributions | packages/contracts/src/plugin-manifest.ts:139-208 | contributions come one for one in input order with distinct ids, clean entries and supported types |
| ManifestRoundTrip.ParsedIsWritten | packages/contracts/src/plugin-manifest.ts:93-237 | written out, a parsed manifest is its input, field by field, with only the entries in normal form |
| ManifestRoundTrip.ReparsedExactlyWhen | packages/contracts/src/plugin-manifest.ts:93-237 | read again it is the same manifest if and only if no normalised entry starts like a drive letter, and refused otherwise |
| PluginManifest.ParsePluginManifest | packages/contracts/src/plugin-manifest.ts:93-237 | returns the declared manifest when valid and otherwise the errors in reporting order |
| PluginManifest.ParseContribution | packages/contracts/src/plugin-manifest.ts:144-208 | errors, known ids and contribution of one declaration |
| PluginManifest.ParseContributions | packages/contracts/src/plugin-manifest.ts:139-209 | the loop over declarations |
| PluginManifest.ParseProvides | packages/contracts/src/plugin-manifest.ts:239-268 | errors and capabilities of provides |
| PluginManifest.ParseRequires | packages/contracts/src/plugin-manifest.ts:270-298 | errors and capabilities of requires |
| ContentParts.SplittingIsLossless | mobile/app/(tabs)/index.tsx:1037-1079 | for any ordered, non-overlapping matches, printing the parts gives the message back through both passes, the empty message included |
| ContentParts.PartsAreTheMatches | mobile/app/(tabs)/index.tsx:1041-1049 | Markdown matches become Markdown images one for one in order; no part is empty unless the message is |
| ContentImages.ImagesStandWhereMatched | mobile/app/(tabs)/index.tsx:1037-1079 | the images of a message are, in order and each at the position of its match, those of the Markdown matches and of the URLs found in the stretches around them, and no others |
| ContentImages.BareUrlsAreFound | mobile/app/(tabs)/index.tsx:1058-1076 | the bare-URL images are, one for one, the URLs found in the stretches of text between the Markdown matches |
| ContentImages.BareUrlsOfPlainText | mobile/app/(tabs)/index.tsx:1058-1076 | without Markdown matches they are exactly the URLs found in the message, the empty one included |
| ContentImages.TextIsNotSplit | mobile/app/(tabs)/index.tsx:1037-1079 | no two parts of text follow each other |
| ContentParts.ParseContent | mobile/app/(tabs)/index.tsx:1037-1079 | the two passes compute the split, and it prints back |
| ContentParts.FirstPass | mobile/app/(tabs)/index.tsx:1038-1055 | the first loop |
| ContentParts.ExpandText | mobile/app/(tabs)/index.tsx:1063-1075 | the second loop on one text part |

## Left out

- Callbacks of the embedding application (`onEvent`, `observeDisconnect`, adapters, React state) are taken not to throw and not to call back into the modelled code.
- Authorisation, the contribution check, the private-output check of host events and the outcome of a socket send are inputs of the gateway model; the assignment service is taken to be configured.
- A throw of `acceptPublicEvent` inside the event callback is an unhandled rejection; the model lets the process continue.
- Revoked hosts, the readiness report's own fields and the answers of the assignment service to its callers are left out; a queued commit lands or fails as the environment decides.
- HostAttempt.HostInvocationAttempt: the constructor requires the provider-neutral input for whose absence the source throws; the gateway only builds it from requests that passed that check.
- RelayGatewayCallbacks.RelayGateway: holds each attempt's fence and disconnect record by value; their two classes are proved separately.
- RelaySessions.RelaySession.Settled: covers tool results, verdicts and context, not progress events, trace spans, media capture or durations; an abort controller is known by the index of its call.
- ToolCallTheorems.AnsweredAndReportedOnce: the promise handler and the `finally` that removes the id are one step; in the source they are separate microtasks, and an abort that runs between them marks a call aborted that has already been reported with another verdict.
- Provider adapters, token minting, credentials, workspace and shell rules of the tools are not modelled.
- PipelineHook.PipelineRefs: native events arrive only while the session is active, since they are subscribed by start and removed by stop; latency figures are left out, and so are the plugin and realtime-text completions.
- VoiceTheorems.WholeTurnIsSpoken: says nothing of a fallback completion, which the code reports without speaking it, nor of speech events that arrive late for an earlier turn.
- TranscriptBufferHook.TranscriptBuffers.FlushEverything: which buffer was entered first is a parameter. The partial transcripts shown on screen are left out.
- Attribute decoding, id and timestamp conversion and JSON of the trace collector happen before the model; a span's parent is absent or present.
- TraceTheorems.OrderAndSplitDoNotMatter: leaves the status out, because it depends on the last request, and spans without times, because a missing start is stored as 0 and a missing end as null.
- The compaction model has one conversation that only grows; deleting messages or summaries is left out. The module is not called elsewhere in the repository.
- The regular expressions of the manifest and of the content splitter are parameters or match lists, and error messages are left out beside their codes.
- Base64 around the resampler is left out; samples are bytes in and bytes out.
- User interface, telemetry, desktop shell, tray, provider protocols and database wrappers are not part of this model.
- Handlers that only forward to their step, or do so behind one guard, are proved but have no row above.
