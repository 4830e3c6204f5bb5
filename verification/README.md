# The Node sidecar, modelled and verified

The sidecar (`priv/ts_sidecar/src`) is a full-duplex JSON-RPC 2.0 peer. It reads newline-delimited
JSON from its standard input and writes it to its standard output, multiplexes many SDK sessions on
that one pipe, answers the peer's requests concurrently, and issues requests of its own. This project
models it and proves what its concurrency promises.

Everything that can interleave is cut at the source's `await` points into atomic steps. A component is
a state with a step function, and **every interleaving is a list of actions**: an action that is not
enabled changes nothing, so a statement about every list of actions is a statement about every run.
The objects of the source are classes whose methods are the pieces of code between two awaits, and
each of these does one step of the machine. For the process as a whole this is `Dispatcher.Execute`:
taken through any list of actions, the objects (session table, sessions with their channels, outbound
client, pipe) are in the state of the machine's run, so every result about runs is about the objects.
What the peer sees of a run is stated on the members of the frames themselves, and does not rely on
the functions that build them: `EachCallIsWrittenOnce` and `ReplySettlesItsCall` for outbound calls,
`ReplyTellsOutcome` and module `Requests` for replies, `PipeCarriesNotices` for notifications.

| file | models |
|---|---|
| `Protocol.dfy`, `Coding.dfy` | JSON values, frames, error codes, the laws taken as given of `JSON.stringify` and `JSON.parse`, and a library that satisfies them |
| `Framing.dfy` | `framing.ts`: the line reader and the writer |
| `Rpc.dfy`, `OutboundCalls.dfy` | `rpc.ts`: the outbound client with a virtual clock, the class `OutboundRpc`, and what its calls write and what settles them |
| `Channel.dfy` | `makeInputChannel`, and the class `InputChannel` |
| `Session.dfy`, `QuerySession.dfy`, `Pumps.dfy` | `QuerySession`: the machine with its pumps, the class, and what is forwarded, read and announced |
| `Bridges.dfy`, `QueryOptions.dfy` | `enrichOptions`, `makeHooks`, `mergeHooks`, `makeMcpServers`, and with which options each query of a run is started |
| `Sidecar.dfy`, `Dispatcher.dfy` | `index.ts`: routing, handlers, session table, shutdown, and the class `Process` |
| `SessionTable.dfy`, `AfterClose.dfy`, `WireNotices.dfy`, `EndToEnd.dfy`, `Shutdown.dfy`, `Requests.dfy` | results about the whole sidecar |

The sidecar's machine takes the sessions' implementation as a parameter (`World.perform`): routing,
replies, the pipe, correlation and shutdown are proved for any implementation, and what needs the real
one asks for `Real`, which `RealWorld` provides. `SessionsAreRuns` then carries the results about the
runs of one session over to each session in the sidecar; `PipeCarriesNotices` says that the frames of
a session on the pipe are the notices of its log, in order; and `NothingAfterClosedReply` orders them
against the reply to its close. Results that ask for `Lawful` are about something: `LawfulHasAModel`.

Five properties that one would expect do not hold as they stand. Each is proved with the condition
under which it does, and with a run in which it fails:

* Issued ids are always the disjoint union of settled and pending ids, **unless** a reply that matches
  a pending call carries `"error": null`: `feed` then throws after it has removed the entry
  (`LedgerBalances`, with the run `NullErrorLosesCall`).
* A resumed session stays open until its own query ends **exactly when** no older pump is still
  iterating or breaking off, because `resume` does not wait for it (`StaysOpenIffNoOlderPump`, with the
  run `OldPumpClosesResumedSession`).
* A `session.close` removes the session it looked up **exactly when** no second `session.close` for
  the same id is in flight (`ClosesSafeIffSingle`, with the runs `TwoClosesInFlight` and
  `SecondCloseRemovesAnother`).
* A session that a close has removed is shut with no pump running **exactly when**, until the close
  ends, the session stays shut and no pump runs but the one the close awaits: a resume in between
  leaves a live query that no id reaches (`RemovalIsQuietIff`, with the run `RemovedSessionLivesOn`).
  Such a session is silent for good **exactly when** no pump of it is live (`RemovedIsSilentIff`).
* A request gets exactly one reply once its handler finishes **unless** no answer for its outcome can be
  serialised, as when the SDK throws an error with data that `JSON.stringify` refuses: the catch clause
  then throws itself (`ReplyIsCertainIff`, with the run `UnserialisableErrorGetsNoReply`).

Where code and comments differ the code is followed: `rpc.ts` announces an abort that does not exist;
`protocol.ts` reserves codes -32002 and -32006, but a send to a closed session is answered with -32603
and requests during shutdown are not refused; after the `shutdown` reply the loop is left only when one
more request, or the end of the input, arrives.

## Model

| member | source | states |
|---|---|---|
| Framing.SplitIsUnique | priv/ts_sidecar/src/framing.ts:31-33 | the lines and the tail are the one splitting into LF-free parts that joins back to the input |
| Framing.ReadFrames | priv/ts_sidecar/src/framing.ts:24-48 | for every list of chunks the streaming reader yields exactly the batch decoding of their concatenation |
| Framing.TakeLines | priv/ts_sidecar/src/framing.ts:31-46 | the inner loop empties the buffer of whole lines, keeps the unterminated tail, and terminates |
| Framing.ChunkingDoesNotMatter | priv/ts_sidecar/src/framing.ts:24-48 | chunks with the same concatenation leave the streaming reader with the same frames and the same buffer, and more input never takes a frame back |
| Framing.BatchHomomorphism | priv/ts_sidecar/src/framing.ts:28-46 | at a line boundary decoding distributes over concatenation |
| Framing.JunkLineIsInvisible | priv/ts_sidecar/src/framing.ts:34-45 | a terminated undecodable line put in at a line boundary leaves all other frames unchanged |
| Framing.OneMoreLine | priv/ts_sidecar/src/framing.ts:31-45 | at a line boundary one more line, ended by LF or CRLF, adds what its text decodes to, and nothing if it is blank or decodes to nothing |
| Framing.RoundTrip | priv/ts_sidecar/src/framing.ts:24-55 | reading back a written log of frames gives the log, with LF or CRLF after each |
| Framing.Wire.Send | priv/ts_sidecar/src/framing.ts:50-55 | a frame is written whole with its LF, or nothing is written when it cannot be serialised |
| Coding.LawfulHasAModel | priv/ts_sidecar/src/framing.ts:36-54 | the laws asked of JSON.stringify and JSON.parse can be met together |
| Rpc.LedgerBalances | priv/ts_sidecar/src/rpc.ts:53-109 | in every run armed timers and pending entries are in bijection and no call is settled twice; a call is neither pending nor settled exactly when a reply with a null error reached it, so the ids balance exactly when none did |
| Rpc.NullErrorLosesCall | priv/ts_sidecar/src/rpc.ts:91-95 | the run in which a reply with a null error leaves its call neither pending nor settled |
| Rpc.FirstCloseDecides | priv/ts_sidecar/src/rpc.ts:53-109 | in every interleaving a call is closed by the first reply bearing its id, due timer or drain after its issue, with that outcome, once; it is pending if there was none |
| Rpc.SettledForGood | priv/ts_sidecar/src/rpc.ts:80-100 | a call off the table keeps its one outcome (none if a null error reached it) for ever, and later frames bearing its id are refused and change nothing |
| Rpc.ReplyOrderConfluence | priv/ts_sidecar/src/rpc.ts:80-100 | any permutation of replies with distinct ids gives the same table, outcomes and accept flags |
| Rpc.NoCallIsOverdue | priv/ts_sidecar/src/rpc.ts:57-62 | when all due timers have fired, in any order, no pending call has reached its effective timeout |
| Rpc.CancelledTimerIsHarmless | priv/ts_sidecar/src/rpc.ts:58-62 | the callback of a timer that is no longer armed settles nothing |
| Rpc.OutboundRpc.Call | priv/ts_sidecar/src/rpc.ts:53-73 | a call takes a fresh id, arms its timer, is pending, and writes a frame with that id, its method and its parameters, unless it cannot be serialised |
| Rpc.OutboundRpc.Feed | priv/ts_sidecar/src/rpc.ts:80-100 | a frame is absorbed exactly when it is a reply to a pending call, with error taking precedence over result, and a null error throws after the entry is gone |
| Rpc.OutboundRpc.OnTimeout | priv/ts_sidecar/src/rpc.ts:58-62 | the timer callback rejects a call that is still pending and does nothing otherwise |
| Rpc.OutboundRpc.RunDueTimers | priv/ts_sidecar/src/rpc.ts:57-62 | firing what is due leaves no pending call at or past its timeout |
| Rpc.OutboundRpc.Drain | priv/ts_sidecar/src/rpc.ts:103-109 | drain settles every outstanding call and disarms every timer, so each issued call has exactly one outcome unless a null error had lost it |
| OutboundCalls.EachCallIsWrittenOnce | priv/ts_sidecar/src/rpc.ts:53-73 | in every run each call has at most one frame on the pipe, with the id under which it is pending, its method and its parameters, and exactly one if that can be serialised |
| OutboundCalls.ReplySettlesItsCall | priv/ts_sidecar/src/rpc.ts:80-100 | a reply with the id of a frame on the pipe settles exactly the pending call that wrote it, by its error or else its result, and leaves every other call as it was |
| OutboundCalls.TimesOutExactlyAfterItsDelay | priv/ts_sidecar/src/rpc.ts:53-62 | a call is timed out from its delay on and not before: 30 s by default, 1 ms for a delay that no timer can have |
| Channel.ChannelIsItsClosedForm | priv/ts_sidecar/src/session.ts:139-176 | after any operations the i-th next() holds the i-th accepted message, else done if closed, else waits; queue and resolvers are exactly the leftovers |
| Channel.DeliveryIgnoresInterleaving | priv/ts_sidecar/src/session.ts:139-176 | how readers' calls fall between the producer's operations does not affect the channel |
| Channel.InputChannel.Next | priv/ts_sidecar/src/session.ts:147-153 | the call gets the message its number entitles it to, or done, or waits |
| Channel.InputChannel.Push | priv/ts_sidecar/src/session.ts:165-170 | a message goes to the longest-waiting reader or the queue, and is refused once closed |
| Channel.InputChannel.Close | priv/ts_sidecar/src/session.ts:171-174 | closing, like an iterator's return, tells every waiting reader there is no more |
| Session.NotificationDiscipline | priv/ts_sidecar/src/session.ts:204-295 | in every run a close() or session.closed is followed by no acceptance, forwarding or session.closed until a resume, and each pump says messages, then at most one last word |
| Session.GenerationIsolation | priv/ts_sidecar/src/session.ts:193-276 | a generation's query reads exactly the messages accepted for it, in order, and its pump forwards a prefix of its own query's output |
| Session.FirstCloseIsFinal | priv/ts_sidecar/src/session.ts:246-295 | for a session never resumed nothing is accepted or forwarded after close() begins and nothing is emitted after the first close() resolves |
| Session.ClosedNoticeExactlyWhen | priv/ts_sidecar/src/session.ts:228-295 | when every resume finds all pumps finished, at most the current pump is live and session.closed is emitted exactly at its query's normal end with no close() since it started |
| Session.StaysOpenIffNoOlderPump | priv/ts_sidecar/src/session.ts:228-244 | an open session survives every undisturbed continuation if and only if no other pump can still reach the end of its loop |
| Session.OldPumpClosesResumedSession | priv/ts_sidecar/src/session.ts:277-284 | the run in which an old pump closes a resumed session under its live query |
| Session.CloseLeavesQuietIff | priv/ts_sidecar/src/session.ts:246-260 | a close() call is sure to resolve with the session shut and no pump running, short of a resume, if and only if the session is shut and only the awaited pump runs |
| Session.AssignedTurnIdsAreFresh | priv/ts_sidecar/src/session.ts:262-265 | no turn id the session assigns is assigned twice, and each is "turn-" with its number in decimal |
| QuerySessions.QuerySession.Create | priv/ts_sidecar/src/session.ts:193-202 | a new session has one empty channel, one live pump and a query with the peer's options and the bridges it asked for; when starting the query throws it has no pump |
| QuerySessions.QuerySession.Send | priv/ts_sidecar/src/session.ts:204-213 | a message is accepted exactly when session and channel are open, under the given or the next turn id |
| QuerySessions.QuerySession.PushTurn | priv/ts_sidecar/src/session.ts:207-211 | the message goes to the channel in use, or is refused when that is closed |
| QuerySessions.QuerySession.Control | priv/ts_sidecar/src/session.ts:215-226 | a known method is called on the current query, with the arguments given or none, exactly when the session is open and they can be applied |
| QuerySessions.QuerySession.Resume | priv/ts_sidecar/src/session.ts:228-244 | the old channel is closed and replaced; the session reopens only when the new query starts; that gets every option sent, under its own name, the id to resume in place of any resume the options bring, and no bridge |
| QuerySessions.QuerySession.BeginClose | priv/ts_sidecar/src/session.ts:246-255 | close() shuts session and channel and awaits the current pump, or returns when already closed |
| QuerySessions.QuerySession.FinishClose | priv/ts_sidecar/src/session.ts:255-260 | a close() call resolves once the pump it awaits has finished |
| QuerySessions.QuerySession.OnMessage | priv/ts_sidecar/src/session.ts:269-276 | the message of an open session is forwarded and the pump goes on if it can be serialised, and the pump fails if it cannot; that of a closed one makes the pump break off |
| QuerySessions.QuerySession.OnLoopEnd | priv/ts_sidecar/src/session.ts:277-284 | an open session gets session.closed and is closed; a closed one hears nothing |
| QuerySessions.QuerySession.OnError | priv/ts_sidecar/src/session.ts:285-294 | a failed pump ends with session.error and leaves the closed flag alone |
| QuerySessions.QuerySession.GoOn | priv/ts_sidecar/src/session.ts:246-295 | whatever a pump, a query or a pending close() does next is one step of the machine, with the frame it writes |
| Pumps.MessageForwardedIff | priv/ts_sidecar/src/session.ts:269-276 | a message yielded to the pump of an open session is forwarded and the pump goes on if and only if its frame can be serialised, and the pump fails if and only if it cannot |
| Pumps.ForwardsAllIff | priv/ts_sidecar/src/session.ts:267-276 | in every run a pump has forwarded all that its query yielded if and only if each message came while the session was open and could be serialised |
| Pumps.PumpEndsAs | priv/ts_sidecar/src/session.ts:277-294 | the end of the loop closes an open session with a notice and a closed one silently; an error is announced with its text and leaves the flag alone |
| Pumps.NoticeIsHeard | priv/ts_sidecar/src/session.ts:271-293 | from the frame of a notice the peer reads the session's id and the notice |
| Pumps.EveryReadIsAnswered | priv/ts_sidecar/src/session.ts:139-176 | in every run a query is answered as often as it asks, the i-th time with the i-th message accepted for its generation |
| Pumps.ChannelUsedExactly | priv/ts_sidecar/src/session.ts:139-176 | a channel closes exactly when its query returns it, its session is resumed, or its open session is closed |
| Pumps.MessageAcceptedAs | priv/ts_sidecar/src/session.ts:204-213 | a message is accepted if and only if session and channel are open, with the user's text as it was sent |
| Pumps.ControlCalledAs | priv/ts_sidecar/src/session.ts:215-226 | the method is called on the current query with the arguments sent, or none, if and only if the session is open, the method known and the arguments can be applied |
| Bridges.HooksOfConcat | priv/ts_sidecar/src/session.ts:345-366 | hooks of a concatenation are the merge of the hooks of its parts |
| Bridges.MergeIsAssociative | priv/ts_sidecar/src/session.ts:410-419 | merging hook tables is associative |
| Bridges.MergeKeepsExisting | priv/ts_sidecar/src/session.ts:410-419 | existing hooks stay in front of the new ones, event by event, and an empty table adds nothing |
| Bridges.PlacedExactlyOnce | priv/ts_sidecar/src/session.ts:368-394 | each tool spec is placed exactly once, under its own server, in original order |
| Bridges.HookedExactlyOnce | priv/ts_sidecar/src/session.ts:345-366 | each hook subscription is placed exactly once, under its own event, in original order, with a callback that fires hook.fire for that event |
| Bridges.MakeHooks | priv/ts_sidecar/src/session.ts:345-366 | each event lists the matchers of its own subscriptions, in order |
| Bridges.MergeHooks | priv/ts_sidecar/src/session.ts:410-419 | the loop over the second table computes the merge |
| Bridges.GroupByServer | priv/ts_sidecar/src/session.ts:371-376 | the specs are grouped by server in original order |
| Bridges.MakeMcpServers | priv/ts_sidecar/src/session.ts:368-394 | one SDK server per server name, holding that server's tools |
| Bridges.WhatSurvives | priv/ts_sidecar/src/session.ts:307-330 | of the peer's options an existing server survives exactly when no tool names it, canUseTool exactly when no permission bridge is asked for, hooks stay in front of the new ones, the rest stays; and every bridge asked for is there |
| Bridges.ResumeInstallsNoBridge | priv/ts_sidecar/src/session.ts:236-240 | enriching for a resume changes nothing, so no bridge is in the options of the resumed query |
| Bridges.OptionsAreHandedOn | priv/ts_sidecar/src/session.ts:307-330 | each option of a request is in the options made of it, under its own name, and nothing else is |
| Bridges.ResumeHandsOn | priv/ts_sidecar/src/session.ts:233-240 | so it is for a resume, with the id to resume in place of any resume the options bring |
| Bridges.BridgesAreAskedFor | priv/ts_sidecar/src/session.ts:313-329 | the bridges read from a request are those it asks for, item by item |
| QueryOptions.CreatedWith | priv/ts_sidecar/src/session.ts:193-202 | in every run the query of a new session is started with the options sent and the bridges asked for |
| QueryOptions.ResumedWith | priv/ts_sidecar/src/session.ts:228-244 | in every run the query of a resumed session is started with the options sent, the id to resume and no bridge, and those of other sessions are left alone |
| Sidecar.DirectionsDoNotInterfere | priv/ts_sidecar/src/index.ts:66-82 | a request is dispatched and settles nothing whatever its id; a response is never dispatched and is absorbed exactly when its call is pending |
| Sidecar.ExactlyOneReply | priv/ts_sidecar/src/index.ts:101-124 | over all interleavings a request has at most one reply, none until its handler is done, and one then, with its id, one of result and error, and a numeric code, unless an error frame for it could not be serialised |
| Sidecar.SettlingReplies | priv/ts_sidecar/src/index.ts:107-124 | a handler with an outcome is one step from its reply, even when dispatch threw or the result cannot be serialised, if its error frame can be |
| Sidecar.OutcomeIsDelivered | priv/ts_sidecar/src/index.ts:101-124 | however the run goes on, what dispatch returned or threw is what the one reply says, and there is none for a finished handler only if no answer for it could be serialised |
| Sidecar.ReplyTellsOutcome | priv/ts_sidecar/src/index.ts:107-123 | however the run goes on, each reply has the very result of its handler, or an error, if that cannot be serialised or something was thrown, with the code, message and data thrown |
| Sidecar.ReplyIsCertainIff | priv/ts_sidecar/src/index.ts:107-123 | a handler with an outcome is sure not to finish without a reply if and only if its outcome has an answer that can be serialised |
| Sidecar.UnserialisableErrorGetsNoReply | priv/ts_sidecar/src/index.ts:111-121 | the run in which a session.create whose query throws an error that cannot be serialised is never answered |
| Sidecar.RefusalsReachThePeer | priv/ts_sidecar/src/index.ts:126-217 | a request with an unknown method, an unknown session or an id that cannot be created changes nothing, and every reply it ever gets is the error with that code |
| Sidecar.PipeHoldsWholeFrames | priv/ts_sidecar/src/framing.ts:50-55 | at every reachable state the pipe holds whole newline-terminated frames, whoever wrote them |
| Sidecar.RoundTripUnderConcurrency | priv/ts_sidecar/src/framing.ts:24-55 | at every reachable state the bytes of all writers, in any chunks and with LF or CRLF, leave the reader with the log of frames sent and an empty buffer |
| Requests.PingAndShutdown | priv/ts_sidecar/src/index.ts:128-136 | ping and shutdown change no session, and their replies say so |
| Requests.CreateIsAcknowledged | priv/ts_sidecar/src/index.ts:138-150 | a create with a new id makes a session under it if its query starts and changes nothing if not; a reply tells the id or what was thrown |
| Requests.SendIsAcknowledged | priv/ts_sidecar/src/index.ts:152-158 | a send is the next event of its session, accepted under the given or the next turn id or rejected; a reply names that turn, or says that it was rejected |
| Requests.ControlIsAcknowledged | priv/ts_sidecar/src/index.ts:160-172 | a control request is the next event of its session; a reply tells what the method's promise came to, or the error of a rejection |
| Requests.ResumeIsAcknowledged | priv/ts_sidecar/src/index.ts:174-179 | a resume begins the next generation of its session if its query starts; a reply says whether it did |
| Requests.CloseIsAcknowledged | priv/ts_sidecar/src/index.ts:181-188 | a close is answered only after the close() call it made has resolved and the id is off the table |
| SessionTable.TableSafety | priv/ts_sidecar/src/index.ts:138-207 | with at most one close in flight per id, an id routes to the session created for it exactly until the close that looked it up removes it |
| SessionTable.ClosesSafeIffSingle | priv/ts_sidecar/src/index.ts:181-188 | closes in flight are sure to remove the sessions they looked up if and only if no two are for one id |
| SessionTable.TwoClosesInFlight | priv/ts_sidecar/src/index.ts:181-188 | the run that leads to two closes in flight for one id |
| SessionTable.SecondCloseRemovesAnother | priv/ts_sidecar/src/index.ts:181-188 | from it a close goes on to remove a session it never looked up |
| SessionTable.SessionsAreRuns | priv/ts_sidecar/src/index.ts:138-188 | every session in the sidecar is in a state that a run of its own leads to |
| AfterClose.RemovalIsQuietIff | priv/ts_sidecar/src/index.ts:181-188 | a close in flight is sure to leave the removed session shut with no pump running, short of a resume, if and only if the session is shut and only the awaited pump runs |
| AfterClose.RemovedSessionLivesOn | priv/ts_sidecar/src/index.ts:174-188 | the run in which a session resumed while closing is removed open, with a live query |
| AfterClose.NothingAfterClosedReply | priv/ts_sidecar/src/index.ts:109-187 | with at most one close in flight per id, no frame of a never-resumed session follows the reply to the close that removed it |
| AfterClose.RemovedIsSilentIff | priv/ts_sidecar/src/index.ts:181-188 | with at most one close in flight per id, a session that its close has removed puts no frame on the pipe again, however the run goes on, if and only if no pump of it is live |
| WireNotices.PipeCarriesNotices | priv/ts_sidecar/src/session.ts:267-295 | what the peer reads from the frames a session has on the pipe is the notices of its log, under its id, in order, none lost or added |
| EndToEnd.EndToEndCorrelation | priv/ts_sidecar/src/index.ts:66-71 | for input bytes cut into any chunks and every interleaving, each outbound call is settled once, by the first frame of the input that answers it while pending, or by its timer or drain |
| EndToEnd.EveryRequestIsHandled | priv/ts_sidecar/src/index.ts:66-82 | for input bytes cut into any chunks and every interleaving, the handlers are, in order, the requests of the input that were not taken as replies to pending calls |
| EndToEnd.ShutdownConservation | priv/ts_sidecar/src/index.ts:87-98 | at process exit every outbound call ever issued has exactly one outcome |
| EndToEnd.AtMostOneMoreRequest | priv/ts_sidecar/src/index.ts:80-85 | after the flag, which only an answered shutdown request sets (`ExitOnlyAfterShutdown`), at most one more request is dispatched before the loop is left |
| Shutdown.ExitOnlyAfterShutdown | priv/ts_sidecar/src/index.ts:80-98 | in every run the flag is set, and the process exits, only after the result of a shutdown request is on the pipe |
| Shutdown.AnsweredShutdownSetsFlag | priv/ts_sidecar/src/index.ts:107-112 | once a shutdown request got its result the flag can be set, unless the process is over |
| Shutdown.LoopIsLeftIff | priv/ts_sidecar/src/index.ts:66-85 | the loop is left exactly at the end of the input, after a request that comes when the flag is set, and by a frame that makes its body throw |
| Shutdown.DiesIff | priv/ts_sidecar/src/index.ts:66-82 | the process fails of what is thrown and never caught, and of nothing else |
| Shutdown.EverySessionIsClosed | priv/ts_sidecar/src/index.ts:87-98 | when main has left, a close() of every session in the table has resolved, the client is drained, and the process exits if the flag is set |
| Shutdown.CanAlwaysLeave | priv/ts_sidecar/src/index.ts:87-98 | in every run that has left the loop some continuation closes all sessions and is done |
| Shutdown.ShutdownExits | priv/ts_sidecar/src/index.ts:80-98 | the run of a shutdown request, its reply and one more request, which leaves the loop and can go on to the exit |
| WireNotices.ReadyComesFirst | priv/ts_sidecar/src/index.ts:51-60 | in every run the first frame on the pipe is sidecar.ready with the protocol and versions |
| Dispatcher.Execute | priv/ts_sidecar/src/index.ts:46-124 | a new process taken through any list of actions is in the state that the machine's run leads to, and its session objects have started their queries with the options of that run |
| Dispatcher.Process.Do | priv/ts_sidecar/src/index.ts:46-207 | whatever happens next, the objects do exactly one step of the machine, and each session keeps to its own channel |
| Dispatcher.Process.Arrive | priv/ts_sidecar/src/index.ts:66-85 | the loop's body routes a decoded frame to client, dispatcher or nowhere, starts its handler, and leaves the loop when the flag was set |
| Dispatcher.Process.DispatchRequest | priv/ts_sidecar/src/index.ts:126-193 | the objects do one Dispatch of the machine: the request goes to the session its id routes to, makes a new one whose query has started, or is refused |
| Dispatcher.Process.SendReply | priv/ts_sidecar/src/index.ts:107-123 | one well-formed reply is written, with the very result if it can be serialised, with the code, message and data thrown otherwise; nothing if neither can |

## Left out

- `JSON.parse`, `JSON.stringify`, UTF-8 decoding and Node streams: only the laws in `Lawful` are used; text is a sequence of characters.
- The Claude SDK, Zod, dynamic imports and version reading: a query is an environment that reads its channel, yields, ends or throws; versions are inputs.
- The list of control methods and Zod shapes: whether a control method is known, and what it answers, are inputs.
- The wording of error messages, the data of error replies beyond what a thrown value carries, ping's clock and the fields of log frames.
- Microtask order inside one atomic step: `session.create` is one step, and no claim is made that a query or a close ever finishes.
- Thrown values without a message, and non-integer error codes: an error text is a string, a code an integer.
- Members of create and resume parameters of another type than `protocol.ts` declares: they are read as absent.
- What Node does with a rejected promise of an outbound call that nobody awaits; after a throw that nobody catches in the loop or a handler, any further steps may happen before the process dies, but no more frame is read if it was the loop.
- Event and server names that are keys of `Object.prototype`, and the order of keys in objects: tables are maps.
- The order in which shutdown visits the sessions: any order is allowed.
- Channels of earlier generations: the class `QuerySession` keeps them as ghost values, since the object itself no longer refers to them.
- `priv/ts_sidecar/src/protocol.ts` beyond its constants, and everything outside `priv/ts_sidecar/src`.
