# A verified model of the bot bridge

This project models the three parts of the system whose correctness is not visible from any single
function, together with the smaller machines they stand on, and proves what holds over whole runs.

**Ownership of bots across workers** (`Ring`, `Bridge`, `Cluster`).  Every worker keeps its connections,
their generations and a round-robin ring of tokens; all workers share a generation counter, an owner key
and a heartbeat score per token.  `ReconcileRing` and `ConnectionBridge` are the code's objects; each
method is proved equal to a function on values, and `Clusters` runs any number of workers over one set of
shared keys.  The central results are self-stabilisation (after a quiet period, every worker holds exactly
the tokens it held and may keep, whatever the state was before) and, under it, the coverage theorem of the
ring, which survives the fact that a swap-remove can move a token that has not been looked at behind the
cursor.

**The plugin's connection** (`Reconnect`, `Monitor`).  `BridgeClient` is the WebSocket client with its
timers, flags, backoff and late events of old sockets; `ProviderMonitor` replaces clients above it; a world
of many clients with one token runs against a server that evicts the older connection.

**The streamed reply, end to end** (`Dispatch`, `ChatStream`, `Wire`, `ChatStore`, `StreamQueue`,
`Pipeline`).  Cumulative partial texts become deltas, deltas become JSON-RPC notifications, notifications
become inbox entries, the streaming loop prints them, the browser's parser reads them in any pieces, and
the reducer shows them.  `Pipeline` composes the stages: what is on screen while the stream is open, what
is left when it closes, and exactly when that is the final text.

Beside these: the worker inbox (`WorkerInbox`), the timed cleanup lock (`CleanupLock`), what counts as
online (`Liveness`) and the cached token validation (`AuthCache`).

## How to read it

A class is the code's object, with the code's steps; its methods say what they do as an equation between
the old and the new value, through functions of values.  The lemmas are about those functions, and about
runs: sequences of whole operations chosen by the environment.  Clocks, random ids, the outcome of a write
or a read, and the behaviour of sockets are parameters of the operations, so that a statement about all
runs covers all of them.  Whole operations of the bridge are atomic steps; the halves of a cached
validation, the commands of the cleanup lock and the read and the write of a worker's inbox are steps of
their own, because what they promise depends on what comes between them.

Nine claims one might expect do not hold of the code, and are stated as what does hold:

* "The generation guard protects every live registration."  When the counter is gone, by expiry, removal
  or the shutdown of its owner, counting starts again at 1.  `Clusters.ResetDefeatsGuard` are two runs in
  which the guard then lets a late unregistration remove a live registration.  And a guard that cannot read
  the generation lets everything through: `Clusters.UnreadGuardStrips` is a run of three steps without any
  restart.  The exact conditions are `Clusters.GuardProtectsIff`, for what the holders could do at any moment
  of a run with guards that can read, and `Clusters.RunSparesOwners`, for the steps of the run itself with
  any faults; `Clusters.RestartsAreTheDanger` says what to watch for beside the guard's reads: a registration
  that finds the counter gone while another worker still holds the token.
* "The generations match the owners, after any fault."  Which failing commands of a registration break the
  match is an if-and-only-if, `Clusters.RegistrationMatchesIff`.
* "An administrative removal fully removes the bot."  On a worker that holds the token with an outdated
  generation the guard keeps the keys of the live registration elsewhere, and nobody is told to disconnect;
  `Clusters.RemovalIsComplete` is an if-and-only-if, and `Clusters.RemovalCanMissLiveBot` a run.
* "start() is safe at any time."  Called while a reconnect timer is pending it leads to a socket and a
  timer at once; `Reconnect.StartCondition` is an if-and-only-if and `Reconnect.RestartDoubles` a run.  The
  monitor only starts new clients.
* "A client that is ready has an open connection."  A start() or a timer that finds the current socket on
  its way down replaces it, and the flag is left over; `Reconnect.ReadyIsLeftOver` is an if-and-only-if,
  `Reconnect.RestartLooksReady` a run, and `Reconnect.ReadyIffOpened` the claim for clients that never do
  that.
* "A removed token is rejected from then on."  A validation between its two halves puts the token back into
  the cache (`AuthCache.RemovedTokenPasses`), and a failing deletion of the cache entry, which the code
  ignores, leaves it there (`AuthCache.UnclearedTokenPasses`); `AuthCache.RemovalIsFinal` is an
  if-and-only-if for either outcome of the deletion.
* "What the browser shows is the final text."  A final delivery is recorded and not streamed, so that a turn
  that is delivered at once and followed by a shorter one never reaches the screen
  (`Dispatch.UnstreamedTurnIsLost`, `Pipeline.LostTurnIsNotDisplayed`).  `Pipeline.DisplayedIsFinalText`
  says when the two agree, turn by turn through `Dispatch.TurnShownIff`.
* "A silent reply sends nothing."  That holds turn by turn (`Dispatch.SilentReplyIsSilent`); the final text
  of two silent turns is the two texts together, which goes out unless it is silent itself
  (`Dispatch.SilentTurnsAddUp`).
* "A bot refreshed at gaps under 30 s is never reported disconnected."  Scores and checks are whole clock
  seconds; a real gap is safe at every phase of the clock if and only if it is at most 29 s
  (`Liveness.SafeGap`).

The results about the streamed reply take a faithful codec for granted: decoding undoes encoding, and an
encoded value is one non-empty line.  `Codecs.FaithfulCodecExists` shows that there is one.

The wire format is a subset of the WHATWG HTML Living Standard, section 9.2.6 "Interpreting an event
stream"; the model follows the code's rules (one data line an event, a space required after the colon).

## Model

| member | source | states |
|---|---|---|
| Rings.ReconcileRing.TrackReconcileToken | backend/internal/service/bridge_reconcile.go:10-20 | appends a token unless it is tracked; the position map stays the exact inverse of the list |
| Rings.ReconcileRing.UntrackReconcileToken | backend/internal/service/bridge_reconcile.go:22-48 | swap-remove: the last token takes the freed slot, the cursor steps back or wraps, and the position map stays the exact inverse of the list |
| Rings.ReconcileRing.NextReconcileBatch | backend/internal/service/bridge_reconcile.go:50-76 | the loop hands out the cyclic stretch of min(k, n) slots that starts at the cursor, and leaves the cursor just behind it, unwrapped at the end of the list |
| Rings.ReconcileRing.ValidValue | backend/internal/service/bridge_reconcile.go:10-76 | agreement of list and index makes the list duplicate-free with the cursor in 0..len |
| Rings.InverseAfterRemoval | backend/internal/service/bridge_reconcile.go:26-36 | the index updated as the code does is the inverse of the list after swap-remove |
| Rings.BatchHasNoDuplicates | backend/internal/service/bridge_reconcile.go:50-76 | one batch never repeats a token and hands out min(k, n) of them |
| Rings.UntrackAhead | backend/internal/service/bridge_reconcile.go:42-47 | removing a token that is still ahead of the cursor keeps all the others ahead |
| Rings.UntrackBehind | backend/internal/service/bridge_reconcile.go:42-47 | removing a token behind the cursor postpones at most one other, the last of the list |
| Rings.PassTracked | backend/internal/service/bridge_reconcile.go:78-111 | a pass removes the stale members of its batch and nothing else |
| Rings.EvictionWithin | backend/internal/service/bridge_reconcile.go:50-111 | a stale token d slots behind the cursor forces an eviction before the batches have run over d + 1 slots |
| Rings.StaleTokensEliminated | backend/internal/service/bridge_reconcile.go:22-111 | after S * ceil(n / min(k, n)) passes or more, exactly the tokens that were not stale are still tracked |
| Rings.OneSweepCanMissAMovedToken | backend/internal/service/bridge_reconcile.go:31-47 | one sweep is not enough: a swap-remove moves an unvisited stale token behind the cursor and the sweep misses it |
| Rings.VisitsAreAStretch | backend/internal/service/bridge_reconcile.go:50-76 | consecutive batches of an unchanged ring hand out one cyclic stretch |
| Rings.VisitsAreFair | backend/internal/service/bridge_reconcile.go:50-76 | over any number of batches of an unchanged ring, the visit counts of two tokens differ by at most one |
| Bridges.ConnectionBridge.CloseConn | backend/internal/service/bridge.go:91-100 | only the first close of a connection takes effect |
| Bridges.ConnectionBridge.RegisterBot | backend/internal/service/bridge.go:362-395 | evicts a holder on the same worker, claims the next generation, refreshes the heartbeat, becomes the owner and stores locally; what each failing command leaves behind |
| Bridges.ConnectionBridge.EvictLocalBot | backend/internal/service/bridge.go:397-408 | drops the token from all three local structures and closes its connection with the eviction code |
| Bridges.ConnectionBridge.UnregisterBot | backend/internal/service/bridge.go:411-441 | nothing if another connection has taken over here; otherwise local cleanup, and shared cleanup unless a newer generation exists |
| Bridges.ConnectionBridge.RemoveBotSessions | backend/internal/service/bridge.go:444-465 | nothing if the session store fails; otherwise closes and unregisters a local bot, or tells the recorded owner to disconnect, if it can be read, and removes the shared keys |
| Bridges.ConnectionBridge.ShouldSkipSharedCleanup | backend/internal/service/bridge.go:742-765 | skips exactly when the generation is readable and above the local one |
| Bridges.ConnectionBridge.CleanupSharedBotState | backend/internal/service/bridge.go:767-774 | removes heartbeat, owner and generation of one token and of no other |
| Bridges.ConnectionBridge.DoHeartbeat | backend/internal/service/bridge.go:228-247 | refreshes the scores of exactly the local bots |
| Bridges.ConnectionBridge.CleanupExpiredBots | backend/internal/service/bridge.go:271-287 | forgets exactly the tokens whose score is at most now - 30 |
| Bridges.ConnectionBridge.Shutdown | backend/internal/service/bridge.go:811-841 | closes every local connection and forgets the shared keys of the tokens without a newer generation |
| Bridges.ShutdownForgetsNext | backend/internal/service/bridge.go:820-836 | each token's guard reads in the loop what it would have read at its start |
| Bridges.ConnectionBridge.ReconcileToken | backend/internal/service/bridge_reconcile.go:81-110 | evicts the token exactly when another owner is recorded or a newer generation exists, as far as the reads succeed |
| Bridges.ConnectionBridge.DoReconcile | backend/internal/service/bridge_reconcile.go:78-111 | a pass is: advance the ring by a batch, and evict all stale members of the batch together |
| Bridges.TurnsInOneGo | backend/internal/service/bridge_reconcile.go:81-110 | the state at the start of a pass decides every eviction in it |
| Bridges.PassInOneGo | backend/internal/service/bridge_reconcile.go:78-111 | the loop of a pass equals its closed form |
| Clusters.ReachableInvariant | backend/internal/service/bridge.go:362-465 | in every reachable state, whatever failed on the way, maps and ring of each worker hold the same tokens and every owned token has a generation; while no registration loses a write, the tokens with a generation are exactly those with an owner, all in the alive set |
| Clusters.RegistrationMatchesIff | backend/internal/service/bridge.go:375-385 | for every combination of failing commands: the match of generations, owners and alive set survives a registration if and only if nothing was claimed, the token was owned already, or the owner is written and the heartbeat is written or was there |
| Clusters.RegistrationOutcome | backend/internal/service/bridge.go:361-395 | a registration succeeds if and only if the worker is not shutting down and neither counter nor owner fails; then the new connection is served here under the newest generation, and the one before it is closed with 4005; when it fails nobody is served here, or nothing has happened on a worker that shuts down |
| Clusters.ReconcileEvictsIff | backend/internal/service/bridge_reconcile.go:81-110 | a pass evicts a bot if and only if its token is in the batch and another named owner or a newer generation was read, and closes its connection with 4005; all others keep connection and generation |
| Clusters.ClosedForGood | backend/internal/service/bridge.go:91-100 | in every run a closed connection stays closed with its first code, and a worker that shuts down takes no new connection |
| Clusters.ShutdownIsFinal | backend/internal/service/bridge.go:811-841 | a shutdown closes every connection, with 4000 unless it was closed before, and in no continuation a registration at that worker succeeds |
| Clusters.EvictedConnectionIsHarmless | backend/internal/service/bridge.go:397-441 | in every reachable state, across resets and failed registrations, the late unregistration of a connection that is gone changes no worker, generation, owner or owned heartbeat if and only if its guard can read, another connection took over, or there is no generation |
| Clusters.GenerationsOrdered | backend/internal/service/bridge.go:361-441 | in every run without a registration that finds the counter gone under another holder, holders' generations are distinct, at most the shared one, and only the owner is at it |
| Clusters.GuardProtectsIff | backend/internal/service/bridge.go:742-774 | over every run with any faults: at every moment of it, live registrations are safe from whatever unregistration or shutdown any other holder may do next with a guard that can read, if and only if each successful registration gets a generation above those of the other holders |
| Clusters.RestartsAreTheDanger | backend/internal/service/bridge.go:375-439 | they are safe, in that sense, if no registration finds the counter gone while another worker holds the token; in runs whose owner writes succeed, only if |
| Clusters.RunSparesOwners | backend/internal/service/bridge.go:742-774 | the steps of the run themselves, with any faults: given generations above those of the other holders, or no such restart, no unregistration or shutdown in the run changes a key of a token that another worker owns if and only if every guard it gets to for such a token can read |
| Clusters.UnreadGuardStrips | backend/internal/service/bridge.go:742-746 | a run of three steps without a restart whose last, an unregistration that cannot read its guard, removes the keys of the live registration elsewhere |
| Clusters.RestartIsUnsafe | backend/internal/service/bridge.go:375-439 | in any state, after a registration beside a holder with the counter gone, the holder's unregistration removes the keys of the live registration |
| Clusters.GuardCondition | backend/internal/service/bridge.go:433-439 | in any state, unregistration and shutdown by a holder leave the token's keys alone if and only if the guard can read and its generation is below the shared one |
| Clusters.ResetDefeatsGuard | backend/internal/service/bridge.go:271-287 | two runs from the start, one with an expiry and one with a shutdown, in which the counter is gone and a late unregistration removes a live registration |
| Clusters.RemovalIsComplete | backend/internal/service/bridge.go:444-465 | an administrative removal leaves no key of the token if and only if the serving worker does not hold it with an outdated generation, or cannot read the newer one; otherwise nothing shared changes and nobody is told; a bot that is not here is disconnected by its recorded owner, which lets go |
| Clusters.RemovalCanMissLiveBot | backend/internal/service/bridge.go:444-465 | two registrations from the start lead there |
| Clusters.QuietRun | backend/internal/service/bridge_reconcile.go:78-111 | however workers' heartbeats and passes interleave, each worker ends where its own passes take it |
| Clusters.SelfStabilises | backend/internal/service/bridge_reconcile.go:78-111 | from any shared keys and any worker states, a quiet period leaves every worker that got enough passes in it with exactly the tokens it held and may keep, on the same connections and generations |
| Clusters.EnoughExists | backend/internal/service/bridge_reconcile.go:78-111 | from any state there is a finite quiet period that gives every worker enough passes |
| Clusters.OnlyOwnersHold | backend/internal/service/bridge_reconcile.go:82-109 | then a token with an owner is held by its owner only, and by it if and only if it held it and was not overtaken |
| Clusters.OneHolderAfterRun | backend/internal/service/bridge_reconcile.go:78-111 | after any run without such a restart and a quiet period, a worker that got enough passes holds a counted token if and only if it is the latest registration, and then it is the owner |
| Reconnect.BridgeClient.StartClient | plugin/src/bridge/client.ts:58-63 | clears the flags and connects |
| Reconnect.BridgeClient.StopClient | plugin/src/bridge/client.ts:65-77 | closes the socket, both timers gone, not ready |
| Reconnect.BridgeClient.Send | plugin/src/bridge/client.ts:83-93 | true exactly when the message went out on the current, open, ready socket |
| Reconnect.BridgeClient.OpenSocket | plugin/src/bridge/client.ts:95-110 | creates a socket unless closing or connected |
| Reconnect.BridgeClient.HandleOpen | plugin/src/bridge/client.ts:112-121 | ready, ping timer, backoff and attempts reset; nothing for an old socket |
| Reconnect.BridgeClient.HandleMessage | plugin/src/bridge/client.ts:123-141 | pong for ping, nothing for pong and invalid JSON, the callback otherwise; nothing for an old socket |
| Reconnect.BridgeClient.HandleClose | plugin/src/bridge/client.ts:143-158 | 4001 marks authentication failed, 4005 evicted, anything else schedules a reconnect; nothing for an old socket |
| Reconnect.BridgeClient.HandleUnexpectedResponse | plugin/src/bridge/client.ts:160-175 | 401 marks authentication failed, anything else schedules a reconnect; nothing for an old socket |
| Reconnect.BridgeClient.HandleError | plugin/src/bridge/client.ts:177-186 | an error that mentions 401 marks authentication failed; nothing for an old socket |
| Reconnect.BridgeClient.HandleTimer | plugin/src/bridge/client.ts:250-253 | the fired timer is gone and the client connects |
| Reconnect.BridgeClient.HandlePing | plugin/src/bridge/client.ts:212-218 | a ping goes out on an open current socket |
| Reconnect.BridgeClient.Abandon | plugin/src/bridge/client.ts:203-208 | gives the socket up if it is current |
| Reconnect.BridgeClient.MarkAuth | plugin/src/bridge/client.ts:229-237 | sets the flag once and drops a pending reconnect |
| Reconnect.BridgeClient.Schedule | plugin/src/bridge/client.ts:239-255 | at most one pending timer, none when flagged or at the limit; the delay, and the doubled backoff up to the maximum |
| Reconnect.NeverStuckNeverDoubled | plugin/src/bridge/client.ts:58-255 | after every event a started client is in exactly one of: current socket, one pending timer, terminal, retry limit reached; ready exactly when the ping timer runs |
| Reconnect.StartCondition | plugin/src/bridge/client.ts:58-99 | start() keeps that if and only if no reconnect timer is pending |
| Reconnect.RestartDoubles | plugin/src/bridge/client.ts:58-63 | a new client that is started, closed abnormally and started again has a socket and a pending timer at once |
| Reconnect.FlaggedClientStaysQuiet | plugin/src/bridge/client.ts:95-255 | stopped, rejected or evicted, a client creates no socket until the next start() |
| Reconnect.LostConnection | plugin/src/bridge/client.ts:143-175 | when the current connection is lost the client ends if and only if the code is 4001 or 4005, the status is 401 or it has seen a 401; otherwise it schedules a reconnect if and only if the limit is not reached; the monitor is told of every close and of the HTTP 401 |
| Reconnect.OnlyLossesRetry | plugin/src/bridge/client.ts:239-255 | no other event schedules a reconnect |
| Reconnect.OneTimer | plugin/src/bridge/client.ts:239-245 | in any state nothing is scheduled while a reconnect is pending, by a flagged client or beyond the limit |
| Reconnect.ErrorThenClose | plugin/src/bridge/client.ts:177-186 | an error that mentions 401 leaves the client connected and ends it with the close that follows, whatever its code |
| Reconnect.MessagesReachAgent | plugin/src/bridge/client.ts:123-141 | over any run the agent gets every JSON text that arrives on a current socket, once and in order, and nothing else |
| Reconnect.PingsAreAnswered | plugin/src/bridge/client.ts:127-131 | a ping on the current socket is answered with a pong on it; a pong, a text that is no JSON and anything on another socket have no effect |
| Reconnect.CreatesIff | plugin/src/bridge/client.ts:95-110 | an event creates a socket if and only if the client wants one, by start() or its timer, and the current one is neither connecting nor open |
| Reconnect.OneConnection | plugin/src/bridge/client.ts:58-110 | however often it is started, stopped and reconnected, a client never has two sockets connecting or open |
| Reconnect.WritesIffReady | plugin/src/bridge/client.ts:83-93 | after any run messages and pings go out if and only if the client is ready and its current socket is open and takes them, and to that socket |
| Reconnect.ReadyIffOpened | plugin/src/bridge/client.ts:112-121 | a client that never replaces a socket on its way down is ready if and only if its current socket has opened |
| Reconnect.ReadyIsLeftOver | plugin/src/bridge/client.ts:95-110 | an event breaks that if and only if it replaces such a socket of a ready client |
| Reconnect.RestartLooksReady | plugin/src/bridge/client.ts:58-63 | three events from a new client lead to a ready client whose socket has not opened |
| Reconnect.CloseIsTold | plugin/src/bridge/client.ts:143-158 | after any run of a new client its monitor is told when the current socket closes |
| Reconnect.StaleEventsErased | plugin/src/bridge/client.ts:112-178 | erasing all events of sockets that were not current gives the same client, timers and callbacks |
| Reconnect.BackoffClosedForm | plugin/src/bridge/client.ts:239-255 | over any run of a new client, the delays since the last open are min(base * 2^k, max), `attempts` counts them, and a positive limit is never exceeded |
| Reconnect.StepLives | plugin/src/bridge/client.ts:143-158 | an accepted eviction takes a connected or reconnecting client out; only start() brings one in |
| Reconnect.EvictionsBoundedByStarts | plugin/src/bridge/client.ts:143-158 | a client accepts at most as many evictions as start() was called |
| Monitors.ProviderMonitor.MonitorBridgeProvider | plugin/src/bridge/monitor.ts:10-87 | the previous client loses its callback and is stopped, the new one is active and started, or stopped at once when already aborted |
| Monitors.ProviderMonitor.OnAbort | plugin/src/bridge/monitor.ts:69-79 | stops the client, and removes it only if it is still the active one |
| Monitors.AtMostOneUnstoppedClient | plugin/src/bridge/monitor.ts:43-86 | over any run of calls, aborts and socket events an account has at most one unstopped client |
| Monitors.NoEvictionPingPong | plugin/src/bridge/monitor.ts:43-59 | all clients together accept at most as many evictions as clients were started, whatever the server does |
| Monitors.EachTakeoverAcceptedOnce | plugin/src/bridge/client.ts:143-158 | no connection is given up to an eviction twice, by any client, over any run |
| Monitors.TakeoverEndsHolder | backend/internal/service/bridge.go:361-408 | a takeover releases the 4005 for the connection that held the token, and the client it reaches ends |
| Monitors.EvictionEndsClient | backend/internal/service/bridge.go:397-408 | the code with which the server evicts is 4005, and a client whose current connection is closed with it has no socket and no timer until it is started again |
| Monitors.ServerCloses | backend/internal/model/errors.go:100-103 | an evicted client ends; one whose token was removed (4003) or whose worker restarts (4000) tries again, unless it has seen a 401 or used up its attempts |
| Monitors.ReplacedIsSilent | plugin/src/bridge/monitor.ts:43-51 | a replaced client never calls its monitor back, whatever happens to it |
| Monitors.AbortFrees | plugin/src/bridge/monitor.ts:69-79 | an aborted client is stopped and no active one any more, and no other account changes |
| Wire.EventParses | backend/internal/pkg/sse.go:9-21 | a printed event with newline-free parts parses to exactly what it says, from boundary to boundary |
| Wire.CommentParses | backend/internal/pkg/sse.go:24-26 | a heartbeat comment leaves no trace in the parser |
| Wire.EventNameIsTrimmed | web/src/composables/useSSE.ts:44-45 | the name of an event is what follows without the spaces around it |
| Wire.LastDataCounts | web/src/composables/useSSE.ts:46-47 | of several data lines the last one counts, as it is |
| Wire.OtherLinesSayNothing | web/src/composables/useSSE.ts:43-65 | comments, unknown fields and fields without the space change nothing |
| Wire.EmptyLineHandsOn | web/src/composables/useSSE.ts:48-63 | an empty line hands an event on if and only if it has a name and data that can be decoded, and the next one starts afresh |
| Wire.ConsumeLines | web/src/composables/useSSE.ts:43-65 | the loop over the complete lines of one read is the fold of the line rule |
| Wire.ConsumeSSE | web/src/composables/useSSE.ts:29-66 | however the stream is cut into reads, the events passed on and the final buffer, event and data are those of one pass over the whole stream |
| ChatStream.DecodeEncoded | backend/internal/router/sse.go:503-525 | reading an inbox entry back gives the event's own type |
| ChatStream.BotMessageIsKnown | backend/internal/service/bridge.go:597-730 | whatever a bot sends, what reaches an inbox has one of the seven known types |
| ChatStream.TranslatesIff | backend/internal/service/bridge.go:844-953 | a notification becomes an event if and only if it is an update of a known type, a medium with a URL, or of an unknown type with a text |
| ChatStream.UnknownIsChunk | backend/internal/service/bridge.go:942-952 | a text of an unknown type becomes a chunk |
| ChatStream.ToolContent | backend/internal/service/bridge.go:870-920 | tool events carry the name or "tool" and the status or "completed"; texts stay as they are, and other contents can be decoded again |
| ChatStream.NeverReachesSession | backend/internal/service/bridge.go:597-730 | pings, results, errors that answer no request and notifications without a session reach no inbox |
| ChatStream.PassedOnIff | backend/internal/router/sse.go:503-532 | an inbox entry is passed on, as an event of its own type, if and only if it is null or an object, a medium only with its data; otherwise it is skipped |
| ChatStream.ChatSSE | backend/internal/router/sse.go:335-561 | the loop with its deadline, heartbeats, chunk injection and terminal events writes the frames of the run, and collects the reply |
| ChatStream.StreamShape | backend/internal/router/sse.go:335-561 | every run writes the session event first, then events that are not terminal, then at most one done or error event and nothing after it, of the kind the close reason says |
| ChatStream.TimesOutIffIdle | backend/internal/router/sse.go:407-501 | an open stream without a signal times out if and only if no message has been read for more than 600 s |
| ChatStream.HeartbeatIffDue | backend/internal/router/sse.go:475-480 | in every run the comments are at least 15 s apart and from the opening, and an idle turn writes one if and only if 15 s have passed since the last |
| ChatStream.ReplyIsChunks | backend/internal/router/sse.go:527-548 | in every run the collected reply is the text of the chunk events written, injected ones included |
| ChatStream.FramesSay | backend/internal/pkg/sse.go:9-26 | printed frames parse back to their events |
| ChatStream.StreamParsesBack | backend/internal/router/sse.go:370-561 | whatever bots send, whatever the turns and however the response is cut, the browser gets exactly the events the loop wrote, in order |
| ChatStore.ChatMessage.HandleSSEEvent | web/src/stores/chat.ts:116-188 | a session event for another session switches to it; for the message, as ShowEvent |
| ChatStore.ChatMessage.ShowEvent | web/src/stores/chat.ts:126-187 | content only grows, by what the event shows; thinking grows by thinking events only; tool calls are added, resolved and finished |
| ChatStore.ChatMessage.ResolveFirst | web/src/stores/chat.ts:147-161 | the first matching call is resolved and no other is touched |
| ChatStore.ResolvedFirst | web/src/stores/chat.ts:151-153 | a result changes the one slot that matches first, or nothing |
| ChatStore.ChatMessage.FinishAll | web/src/stores/chat.ts:179-186 | no call is left running, and no other field changes |
| ChatStore.ResultsAreFifo | web/src/stores/chat.ts:134-161 | however calls and results of different tools interleave, the calls of each name are answered first in, first out |
| ChatStore.NothingRunsAfterDone | web/src/stores/chat.ts:175-187 | after done the answered calls are as they were answered, and those that waited are completed |
| ChatStore.AnsweredById | web/src/stores/chat.ts:134-161 | a call with an id of its own is answered by the result with that id, whatever its name |
| ChatStore.MediaShown | web/src/stores/chat.ts:163-169 | a medium is shown under its content, or under its URL |
| ChatStore.OtherEventsShowNothing | web/src/stores/chat.ts:116-188 | an event without data, or of another kind, changes neither text nor thinking nor calls |
| Dispatch.ReplyStream.OnPartialReply | plugin/src/messaging/inbound.ts:393-427 | turn reset, silent filter, delta and send of one partial text |
| Dispatch.ReplyStream.DeliverFinalText | plugin/src/messaging/inbound.ts:335-366 | a final delivery only records its text |
| Dispatch.ReplyStream.SendChunkText | plugin/src/messaging/inbound.ts:294-308 | an empty text is not sent, and only a successful send counts |
| Dispatch.ReplyStream.SendFinalText | plugin/src/messaging/inbound.ts:310-327 | at most one final is sent |
| Dispatch.ReplyStream.SendAnswer | plugin/src/messaging/inbound.ts:446-452 | the answer to the request goes out once |
| Dispatch.ReplyStream.Finish | plugin/src/messaging/inbound.ts:432-487 | after completion the final text, unless there was no output or it is silent, and the result; when the dispatch throws after an abort the final text and the result, and otherwise the error |
| Dispatch.ReplyStream.AbortDispatch | plugin/src/messaging/inbound.ts:50-62 | a cancelled session marks its dispatch as aborted |
| Dispatch.EndOfReply | plugin/src/messaging/inbound.ts:432-487 | what the end adds after any callbacks: the final text if and only if there was output and it is not silent, and whether there was output as the result; after an abort the final text in any case; otherwise the error |
| Dispatch.DroppedFinal | plugin/src/messaging/inbound.ts:440-452 | when the final text cannot be sent the result still tells whether anything was streamed |
| Dispatch.DroppedPiece | plugin/src/messaging/inbound.ts:421-426 | a piece that cannot be sent is not sent later and counts for the final text all the same |
| Dispatch.ClosedOnce | plugin/src/messaging/inbound.ts:312-327 | a closed reply is not closed again |
| Dispatch.StoppedStaysQuiet | plugin/src/messaging/inbound.ts:393-394 | after an abort no callback streams anything, and only final deliveries change the recorded text |
| Dispatch.StoppedReply | plugin/src/messaging/inbound.ts:466-480 | for any callbacks before and after an abort: nothing is streamed after it, and the throw is followed by one final, of the text recorded up to the abort and delivered after it, and by the result |
| Dispatch.SilentReplyIsSilent | plugin/src/messaging/inbound.ts:413-440 | a turn of texts that are silent or begin a silent token, delivered as a silent text, sends nothing but "no_reply" |
| Dispatch.SilentTurnsAddUp | plugin/src/messaging/inbound.ts:401-440 | two silent turns send their texts together as the final one, unless these are silent together |
| Dispatch.StreamedIsFinalText | plugin/src/messaging/inbound.ts:401-436 | for all callbacks: given the earlier turns streamed what they recorded, the deltas add up to the final text if and only if the last turn did too; if final deliveries only repeat what was streamed, if and only if every partial text that was sent extends the last one of its turn |
| Dispatch.TurnShownIff | plugin/src/messaging/inbound.ts:359-426 | what each callback does to a turn: a final delivery leaves it shown if and only if it repeats what the turn has streamed, a text that extends the recorded one if and only if the turn was shown, and one that does not if and only if nothing had been streamed |
| Dispatch.UnstreamedTurnIsLost | plugin/src/messaging/inbound.ts:401-426 | a turn delivered at once and followed by a shorter text is in the final text and was never streamed |
| Dispatch.LostTurnExample | plugin/src/messaging/inbound.ts:401-426 | a concrete pair of callbacks that streams "Hi!" for the final text "Hello worldHi!" |
| Dispatch.CoincidenceAcrossTurns | plugin/src/messaging/inbound.ts:401-436 | turns that are not shown can still add up by coincidence, so that the turn-by-turn condition has no plain converse |
| Dispatch.PrefixTestIsBeginning | plugin/src/messaging/inbound.ts:25-30 | the silent-prefix test holds if and only if the trimmed, upper-cased text is a beginning of a token; its character test decides nothing |
| Dispatch.HeldIffBeginsToken | plugin/src/messaging/inbound.ts:413-426 | a new piece of a text that is not silent is held back exactly while the text is a beginning of a silent token, and else sent as one chunk |
| Dispatch.SilentPrefixIsHeld | plugin/src/messaging/inbound.ts:23-30 | while a text can still become a silent token, in any letters and with any spaces around it, nothing is sent |
| Pipeline.OneEntry | backend/internal/service/bridge.go:844-867 | every update of the plugin becomes exactly the inbox entry of its translated event, and nothing if there is none |
| Pipeline.OutcomeIsSilent | backend/internal/service/bridge.go:701-704 | the result of a request reaches no session at all |
| Pipeline.BasicEffects | backend/internal/service/bridge.go:844-867 | through translation, decoding and the reducer: a chunk adds its text as a chunk, a final finishes with its text, a failure breaks with its message, a result does nothing |
| Pipeline.OutboundText | plugin/src/messaging/outbound.ts:25-35 | a text sent outside a reply adds itself as a chunk |
| Pipeline.OutboundMedia | plugin/src/messaging/outbound.ts:86-105 | a medium sent outside a reply adds a link to its URL, and is no chunk |
| Pipeline.DeliverDone | backend/internal/router/sse.go:534-560 | a done event ends the stream; with chunks on screen it leaves them, and otherwise its own text is added to what is there |
| Pipeline.OtherEnds | backend/internal/router/sse.go:407-470 | when the client leaves, the bot is gone, the deadline has passed or the read fails, and only then, a turn without a message ends the stream, and adds nothing or its error to the screen |
| Pipeline.AgentAbortBreaks | plugin/src/hooks.ts:114-127 | an aborted agent run breaks the stream with its message |
| Pipeline.ShowResponse | web/src/stores/chat.ts:83-93 | the browser's parsing and showing of a response in any pieces is the displayed text of the other results |
| Pipeline.DisplayedText | backend/internal/router/sse.go:370-561 | for any updates sent to the session, any turns and any cutting: while the stream is open the browser shows exactly what the entries read so far add; once a done or error event closed it, what was added before the first ending update and what that one leaves |
| Pipeline.DisplayedIsFinalText | plugin/src/messaging/inbound.ts:393-440 | when done closed the stream, for all callbacks with any texts and media sent meanwhile: the browser shows the final text if and only if nothing was added to the screen, or a chunk was and all that was added is the final text; with tool hooks only, what was added is what was streamed, and: given the earlier turns were shown, if and only if nothing was streamed or the last one was; if final deliveries only repeat, if and only if every partial text that was sent extends the last one of its turn |
| Pipeline.LostTurnIsNotDisplayed | plugin/src/messaging/inbound.ts:401-436 | a turn delivered at once and followed by a shorter one is in the done event, and what the browser shows is the second turn alone |
| Pipeline.CalmRunEnds | backend/internal/router/sse.go:370-561 | a run without signals, failures or timeouts that reads all entries ends as the first ending update says |
| Pipeline.PromptUpdatesAreShown | backend/internal/router/sse.go:370-561 | read at once, any updates with an ending one close the stream as it says, and show what came before it and what it leaves |
| Pipeline.ToolCallArrives | plugin/src/hooks.ts:40-54 | a tool call of the hook shows as one more running call with its name and input |
| Pipeline.ToolResultArrives | plugin/src/hooks.ts:95-111 | a tool result of the hook answers the first running call of its name, with its text, as failed exactly on an error |
| Pipeline.ThoughtArrives | backend/internal/service/bridge.go:898-900 | a thought is added to the thinking and to nothing else |
| Pipeline.MediaArrives | backend/internal/service/bridge.go:922-940 | a medium arrives as a link to its URL, whatever its caption, which comes with it |
| Pipeline.ErrorArrives | backend/internal/service/bridge.go:705-729 | every error response reaches the session it names, in its data first, ends the stream and shows its message after what was there |
| Pipeline.DisplayedThroughQueue | backend/internal/router/sse.go:220-224 | the same, for any updates, through the purged inbox and its consumer group, for any interleaving of publishing and consuming with the backlog within the limit |
| StreamQueues.RedisStreamQueue.Publish | backend/internal/service/queue.go:44-56 | appends an entry with the next id and trims to some number of newest entries, at least the limit |
| StreamQueues.RedisStreamQueue.Consume | backend/internal/service/queue.go:58-88 | the next unread entry goes to the consumer; a missing group is created at the end and nothing is returned |
| StreamQueues.RedisStreamQueue.Ack | backend/internal/service/queue.go:90-97 | takes the entry off the pending list and changes nothing else |
| StreamQueues.RedisStreamQueue.DeleteMessage | backend/internal/service/queue.go:99-106 | removes one entry |
| StreamQueues.RedisStreamQueue.DeleteQueue | backend/internal/service/queue.go:108-115 | removes the stream with its groups |
| StreamQueues.RedisStreamQueue.Purge | backend/internal/service/queue.go:117-124 | empties the stream; its ids and groups go on |
| StreamQueues.RedisStreamQueue.EnsureGroup | backend/internal/service/queue.go:126-137 | creates the group at the end of the stream unless it exists |
| StreamQueues.DeliveredOnceInOrder | backend/internal/service/queue.go:44-137 | on a stream that is not deleted, the consumers of a group get entries in order of their ids, beyond what was read, each published |
| StreamQueues.NeverTwice | backend/internal/service/queue.go:58-88 | no entry is handed out twice, to the same or to different consumers |
| StreamQueues.PurgedIsGone | backend/internal/service/queue.go:117-124 | nothing published before a purge is delivered after it |
| StreamQueues.NothingLost | backend/internal/service/queue.go:44-88 | unread and published entries equal delivered and still unread ones, in order, if and only if no publication finds more unread entries than trimming keeps |
| StreamQueues.FreshInboxIsFifo | backend/internal/router/sse.go:220-224 | after purge and group creation, deliveries are a first part of the publications while the backlog is within the limit |
| StreamQueues.DeletionLoses | backend/internal/service/queue.go:70-76 | after a deletion, an entry published before the reader recreates the group is never delivered |
| StreamQueues.DeletedIsGone | backend/internal/service/queue.go:99-106 | a deleted entry is not delivered any more, and no other entry goes |
| StreamQueues.PendingUntilAcknowledged | backend/internal/service/queue.go:58-97 | in every run an entry is pending with a consumer if and only if it was handed to that consumer last and not acknowledged since |
| WorkerInboxes.WorkerInbox.PublishToWorkerInbox | backend/internal/service/bridge_worker_inbox.go:22-35 | queues the request at the given worker, under the bot's token, and at no other |
| WorkerInboxes.WorkerInbox.PublishDisconnectToWorkerInbox | backend/internal/service/bridge_worker_inbox.go:37-50 | queues a disconnect at the given worker and at no other |
| WorkerInboxes.WorkerInbox.Take | backend/internal/service/bridge_worker_inbox.go:67-95 | reads and acknowledges one message, unless shutting down; an unreadable one is acknowledged and dropped |
| WorkerInboxes.WorkerInbox.Handle | backend/internal/service/bridge_worker_inbox.go:97-122 | evicts on disconnect, writes a request to the connection registered here under its token, and does nothing otherwise |
| WorkerInboxes.WrittenAtMostOnce | backend/internal/service/bridge_worker_inbox.go:64-125 | over any interleaving of consumers and worker, each message leads to at most one written request, with its own token and content |
| WorkerInboxes.WritesToOwnConnection | backend/internal/service/bridge_worker_inbox.go:107-122 | a step writes at most one request, to the connection registered under its token at that moment |
| WorkerInboxes.HandlingWritesIff | backend/internal/service/bridge_worker_inbox.go:97-122 | handling a message writes its request, to the connection registered under its token, if and only if it has one and the bot is connected here; after a disconnect the bot is not connected here and its connection is closed |
| WorkerInboxes.TakesIff | backend/internal/service/bridge_worker_inbox.go:67-95 | a consumer gets a message if and only if the worker is not shutting down and the next unread entry can be decoded |
| WorkerInboxes.TakenIsWrittenOnce | backend/internal/service/bridge_worker_inbox.go:67-122 | whatever happens in between and afterwards, a request that is taken, and whose bot is connected here when it is handled, is written exactly once, to the connection of that moment |
| WorkerInboxes.ReadIsAcknowledged | backend/internal/service/bridge_worker_inbox.go:95-95 | in no run a message that was read stays to be acknowledged |
| CleanupLocks.LockKey.SetNX | backend/internal/service/bridge.go:253-257 | acquires exactly when no live lock exists, for the time to live |
| CleanupLocks.LockKey.ExtendScript | backend/internal/service/bridge.go:54-59 | extends only the holder's own live lock |
| CleanupLocks.LockKey.ReleaseScript | backend/internal/service/bridge.go:60-65 | deletes only the holder's own live lock |
| CleanupLocks.MutualExclusion | backend/internal/service/bridge.go:249-332 | if each renewal lands before the time to live runs out, at most one worker is ever inside the cleanup |
| CleanupLocks.SecondEntersIffLate | backend/internal/service/bridge.go:253-257 | a second worker gets in if and only if the one inside is late |
| CleanupLocks.EntersIffFree | backend/internal/service/bridge.go:253-332 | after any punctual run a worker gets in if and only if nobody is inside |
| CleanupLocks.OthersCannotDisturb | backend/internal/service/bridge.go:53-66 | with no timing assumption on the others, the lock of a worker that renews in time is what its own commands made it |
| Liveness.BulkCheckBotOnline | backend/internal/service/token_manager.go:212-233 | reports exactly the requested tokens that were read and are connected |
| Liveness.BotStatusMonitor.RegisterSSEConnection | backend/internal/service/bot_status_monitor.go:60-76 | stores an untold stream under its inbox key |
| Liveness.BotStatusMonitor.UnregisterSSEConnection | backend/internal/service/bot_status_monitor.go:79-92 | removes it |
| Liveness.BotStatusMonitor.CheckAllBots | backend/internal/service/bot_status_monitor.go:120-169 | tells exactly the streams whose bot was read and is not connected |
| Liveness.BotStatusMonitor.NotifyBotDisconnected | backend/internal/service/bot_status_monitor.go:172-193 | tells all streams of the token and no other |
| Liveness.AllAgree | backend/internal/service/bridge.go:467-489 | at one instant single check, summary and count agree, and cleanup removes exactly the tokens they call offline |
| Liveness.RegistrationIsSeen | backend/internal/service/bridge.go:374-385 | a registered bot is connected for 30 s from the time of its registration, and a cleanup takes its keys if and only if it works with a later time |
| Liveness.ConnectedIffRefreshed | backend/internal/service/bridge.go:228-287 | after any run of the cluster with any faults, a token is connected if and only if a registration or a heartbeat of its worker wrote it less than 30 s ago and no unregistration, removal or shutdown took it since |
| Liveness.RefreshedIsKept | backend/internal/service/bridge.go:271-287 | a token refreshed at gaps under 30 clock seconds and not removed on purpose is never seen disconnected, and keeps heartbeat, an owner and its generation, whatever else the cluster does |
| Liveness.SafeGap | backend/internal/service/bridge.go:467-474 | a real gap since the last refresh is harmless at every phase of the clock if and only if it is at most 29 s |
| AuthCache.TokenStore.Validate | backend/internal/service/token_manager.go:60-79 | accepts exactly a token that is in the table and not expired |
| AuthCache.TokenStore.Generate | backend/internal/service/token_manager.go:33-57 | the token with its expiry, or none; nothing when the insert fails |
| AuthCache.TokenStore.Update | backend/internal/service/token_manager.go:82-110 | changes the table and leaves the cache alone; nothing when a read or write fails |
| AuthCache.TokenStore.Remove | backend/internal/service/token_manager.go:113-121 | a failing delete changes nothing, a failing invalidation goes unnoticed |
| AuthCache.TokenStore.CleanupExpired | backend/internal/service/token_manager.go:255-265 | removes and counts exactly the expired tokens |
| AuthCache.TokenStore.InvalidateTokenCache | backend/internal/middleware/token_auth.go:101-103 | drops the token's cache entry |
| AuthCache.TokenStore.ValidateCached | backend/internal/middleware/token_auth.go:83-98 | accepts exactly on a live cache entry or a valid token, and fills the cache only in the second case |
| AuthCache.AcceptedWasValid | backend/internal/middleware/token_auth.go:83-98 | whenever a request passes, the table held its token unexpired less than 30 s earlier, plus the time between the halves of a validation |
| AuthCache.ValidPasses | backend/internal/middleware/token_auth.go:83-98 | a token that is in the table and not expired passes, at once or when its validation finishes |
| AuthCache.UnwrittenCacheStaysEmpty | backend/internal/middleware/token_auth.go:92-96 | in a run in which the cache cannot be written, no request passes by it |
| AuthCache.ValidUntil | backend/internal/service/token_manager.go:40-43 | until when a token is valid; a duration that is not positive means for ever at the creation, and in an update only zero does |
| AuthCache.CleanupIsSilent | backend/internal/service/token_manager.go:255-265 | the cleanup keeps exactly the valid tokens, and no later validation can tell |
| AuthCache.InvalidationCompletesRemoval | backend/internal/middleware/token_auth.go:101-103 | an invalidation after the removal makes it final if and only if no validation is under way then |
| AuthCache.RemovalIsFinal | backend/internal/service/token_manager.go:113-121 | a removal is final in every continuation that does not recreate the token if and only if no validation of it is under way and, when the cache deletion failed, the cache holds no live entry of it |
| AuthCache.RemovedTokenPasses | backend/internal/middleware/token_auth.go:83-98 | from nothing, four steps let a removed token pass, and every cached look after them for 30 s |
| AuthCache.UnclearedTokenPasses | backend/internal/service/token_manager.go:117-120 | from nothing, a removal whose cache deletion fails lets the token pass for as long as its entry lives, with no validation under way |

## Left out

- Redis, MySQL, WebSocket, HTTP and object-storage calls themselves, logging, metrics and tracing: keys are maps, a stream is a sequence with ids, sockets are numbers.
- Redis and table errors other than those that are parameters: the commands of a registration, the reads of a reconcile pass, of the generation guard and of a removal's route, the reads of the liveness checks, and the cache and table calls of the token manager and the validation.
- Telling a worker's own chat streams when a bot is evicted or unregistered, and answering a bot's ping.
- Interleavings inside RegisterBot, evictLocal, UnregisterBot, RemoveBotSessions, cleanupExpiredBots, Shutdown and doReconcile: each is one step of a cluster run.
- Clusters.SelfStabilises: starts from any shared keys and any local connections and generations, but with the ring and the maps of each worker in agreement, which every reachable state has.
- The session store, except that it can fail in RemoveBotSessions, and the cached session list, whose two paths number sessions differently.
- Chat inbox bookkeeping and the workers that delete left-over inboxes.
- The trace context, the last-seen time and the recorded runtime state of an account in the plugin.
- A WebSocket constructor that throws, and destroying the response's socket.
- JSON and UTF-8 encoding (`Codec` is any faithful one) and JavaScript's coercion of event fields that are not strings.
- Upper-casing beyond ASCII in the silent-token prefix, and the runtime's own test for a silent reply, which is a parameter.
- Overlapping prompts in one session: events carry no request id.
- "A done event is always sent": a dispatch without output, or with a silent one, sends none.
- "running=false whenever the client will not reconnect": not so when the retry limit is reached.
- Media: its download and upload, and the URL rules; a media event only adds its link to the text on screen.
- The parts of consumeSSE for a failed response or a read error, which only call the error callback.
- The path and header rules of the middleware, pagination, onboarding, configuration, and the migration lock.
