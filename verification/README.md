# lxi-web, verified

A Dafny model of the concurrent machinery that carries SCPI traffic in lxi-web, a server and browser dashboard
for bench instruments, with proofs of what that machinery promises.

- **The link.** `ScpiHost` is the SCPI session as a state machine: a job queue, one job in flight, a receive
  buffer, deadlines and two kinds of close, with the pump split where it awaits the transport. `ScpiSession` is the
  same as a class. `Framing` and `Chunking` are its two framings, `DeviceScripts` and `Simulator` the device,
  `Link` the two ends with the transport and the bytes between them; `LinkCommands` and `SimulatorReplies` say what
  that means for commands and replies. `ErrorRows`, `ErrorTexts` and `ErrorQueue` are the instrument's error queue
  and the loop that drains it.
- **Live readings.** `ReadingLoops`, `LiveReadings` and `ReadingScheduler` are the reference-counted read loops,
  `SubscriptionProtocol`, `Listeners` and `SubscriptionEndpoints` the browser store, the WebSocket route and the
  channel between them, `Batches`, `Feeds` and `ObservabilityScheduler` the debounced batches of device errors and
  transcript lines.
- **Sessions.** `SessionLifecycle`, `SessionProgress` and `SessionManager` are open, reconnect, close and connection
  loss racing an establish; `Panic`, `OutputKill`, `Instrument` and `KeysightE36` are the panic stop and a power
  supply whose commands act on a selected channel.
- **Data structures.** `RingBuffers` (transcript and device-error rings, paging), `Discovery` and `Advertised` (merging
  mDNS advertisements), `DriverRegistry` and `Matching` (longest-match driver resolution).

State machines are pure step functions over explicit state; a run is a `Trace` of events, any of which may come
whenever it is possible. An invariant carried by every step gives the theorems about every run; where it can be, they
are stated in terms of the events of the run rather than of the state. Where the source updates objects in place there
is a class beside the state machine, and each of its methods is proved to do what the step function says, so the
theorems hold of the objects. `dafny verify dfyconfig.toml` checks everything.

Some results say where the code does not do what one might expect, and state exactly when it does:

| case exhibited | promise and its exact condition |
|---|---|
| `StrayRefusal` | `ScpiHost.OutcomesFit`, `ScpiHost.WritesAreSpared`, `Link.RefusalSound` |
| `LateReplyGoesToNextQuery` | `Link.DeadlineSound` |
| `OrphanLfEffect` | `Framing.GotStable`, `Chunking.ChunkingIndependence`, `Link.DeliverySound` |
| `ResubscribingRemovedSession` | `ReadingLoops.WhenFramesStray`, `ReadingLoops.RemovedStayDead` |
| `DroppedKeyLingers`, `ListeningAgainIsIgnored` | `SubscriptionProtocol.SubscriptionAgreement`, `SubscriptionProtocol.WhereAgreementIsLost` |
| `OverlapLeaks` | `SessionLifecycle.ReconnectFits` |
| `LostDuringRefine`, `DeadButConnected` | `SessionLifecycle.LostBeforeListening`, `SessionLifecycle.ConnectedButLost` |
| `PollDivertsDisable` | `Instruments.OffReachesItsChannel` |
| a code-0 row that says "no error" | `ErrorQueues.DrainIsFifo`, `ErrorQueues.DrainQuietQueue` |

`EmptyEmissionArms` shows why the batches need emitters that never emit an empty list. Two comments in the source
disagree with the code, and the model follows the code: `TranscriptRing.tail` is documented as newest first and returns
oldest first, and `drainSystErr` is documented to stop at a row it cannot parse and goes on past it.

A byte is a `char` and a byte string a `string`.

## Model

| member | source | states |
|---|---|---|
| Framing.BlockRoundTrip | packages/core/src/scpi/session.ts:373-400 | decoding an encoded payload, its LF and any rest gives back the payload and leaves the rest, if and only if the payload is shorter than 10^9 bytes |
| Framing.BlockPrefixNeedsMore | packages/core/src/scpi/session.ts:373-394 | a proper prefix of an encoded block is neither an error nor a value |
| Framing.BlockBare | packages/core/src/scpi/session.ts:393-399 | a block whose LF has not arrived is delivered all the same, with nothing left over |
| Framing.PaddedBlock | packages/core/src/scpi/session.ts:379-399 | a block whose length is padded with zeros to any width up to nine digits is read as well |
| Framing.BlockErrors | packages/core/src/scpi/session.ts:373-392 | exactly which buffers are a protocol error: no `#`, no digit from 1 to 9 after it, or length digits that are no count |
| Framing.ParseIntReads | packages/core/src/scpi/session.ts:388-392 | how the length digits are read: white space and one sign before the digits are taken, and whatever follows them is ignored |
| Framing.ParseWholeLine | packages/core/src/scpi/session.ts:361-371 | a line ended by LF is read as its text, and one ended by CR LF as well; what follows is left over |
| Framing.MalformedStable | packages/core/src/scpi/session.ts:376-392 | a malformed buffer stays malformed whatever arrives later |
| Framing.GotStable | packages/core/src/scpi/session.ts:396-398 | later bytes leave a delivered reply alone and only lengthen the rest, if and only if they do not begin with the LF of a block that was just complete; in that case the eager reading keeps the LF |
| Framing.OrphanLfEffect | packages/core/src/scpi/session.ts:361-380 | an LF left behind is read as the empty line, or makes the next block read malformed |
| Chunking.ChunkingIndependence | packages/core/src/scpi/session.ts:338-400 | however a stream is cut and whenever delivery is attempted, replies and leftover stand for the reading of the stream in one piece if and only if no block was delivered ahead of its LF |
| Chunking.ChunkingAtRest | packages/core/src/scpi/session.ts:338-400 | once no reply can be cut, replies and leftover buffer are exactly those of the unbroken stream, under the same exact condition |
| Chunking.Displaced | packages/core/src/scpi/session.ts:361-400 | an LF too many in front of the buffer always shows: at the first reply that differs there is an error, an empty line, or a reply at all where the true reading has none, or else the leftover is longer |
| ScpiHost.JobLifecycle | packages/core/src/scpi/session.ts:232-283 | in every run each accepted job is in exactly one of queue, in flight and settled, settles once, the frames that go out hold the commands and data of the jobs in the order of acceptance, and a closed session leaves nothing unsettled |
| ScpiHost.FrameConveys | packages/core/src/scpi/session.ts:285-311 | the frame of a text job is its command and the terminator; that of a binary write is its command, a block that reads back as its data, and the terminator |
| ScpiHost.NoLostWakeup | packages/core/src/scpi/session.ts:248-283 | in every run an open session with queued work has a job in flight, and a query whose send has settled finds neither a reply nor a malformed one in the buffer |
| ScpiHost.DeadlinesArmed | packages/core/src/scpi/session.ts:313-326 | in every run, of the queries that wait with their frames sent, exactly those with a timeout have a deadline running |
| ScpiHost.WhatSettles | packages/core/src/scpi/session.ts:232-437 | whom each event settles and with what: at a close everything pending, in order, with its error; else at most the job in flight, with its reply, a protocol error, a failed send or a timeout |
| ScpiHost.TimersCleared | packages/core/src/scpi/session.ts:313-336 | a job that settles takes its deadline along; only an explicit close leaves the timers as they are |
| ScpiHost.BufferKeeps | packages/core/src/scpi/session.ts:338-400 | bytes leave the buffer only as the reply they are delivered in |
| ScpiHost.OutcomesFit | packages/core/src/scpi/session.ts:274-282 | in a run writes settle as writes and queries as queries if and only if no send of a write settles while a query is in flight |
| ScpiHost.StepFits | packages/core/src/scpi/session.ts:263-437 | one step keeps every outcome in its kind if and only if it is not the send of a write settling with a query in flight; a refusal alone never mixes kinds |
| ScpiHost.StepFaithful | packages/core/src/scpi/session.ts:263-437 | a write whose send is outstanding stays unsettled, failed in no other job's place, through every step but a refusal that comes while another job's write is in flight; exactly there it does not |
| ScpiHost.WritesAreSpared | packages/core/src/scpi/session.ts:263-437 | in a run no write is ever settled with its send outstanding if and only if every refusal comes while its own job, a query or nothing is in flight |
| ScpiHost.SparedRunsFit | packages/core/src/scpi/session.ts:263-437 | runs with such refusals only keep every outcome in its kind |
| ScpiHost.StrayRefusal | packages/core/src/scpi/session.ts:280-282 | a run from the start that breaks both: a refusal fails a write in the place of an answered query, still in kind, and the query behind it then settles as a write |
| ScpiHost.LateReplyGoesToNextQuery | packages/core/src/scpi/session.ts:313-326 | after a timeout, from any idle session, the late reply is taken by the next query |
| ScpiHost.StepValid | packages/core/src/scpi/session.ts:232-438 | every call, continuation, timer and socket event keeps the session invariant behind the run theorems |
| ScpiSessions.ScpiSession.constructor | packages/core/src/scpi/session.ts:58-68 | a new session is the initial state |
| ScpiSessions.ScpiSession.Enqueue | packages/core/src/scpi/session.ts:248-261 | accepts a job exactly while open, and pumps, as the state machine does |
| ScpiSessions.ScpiSession.Pump | packages/core/src/scpi/session.ts:263-273 | takes the next job and hands its frame over, as the state machine does |
| ScpiSessions.ScpiSession.FinishInFlight | packages/core/src/scpi/session.ts:402-418 | settles whatever is in flight and pumps, as the state machine does |
| ScpiSessions.ScpiSession.ConsumeLine | packages/core/src/scpi/session.ts:361-371 | cuts a line exactly as the line framing says |
| ScpiSessions.ScpiSession.ConsumeBinaryBlock | packages/core/src/scpi/session.ts:373-400 | cuts a block exactly as the block framing says, and consumes nothing on an error |
| ScpiSessions.ScpiSession.TryDeliver | packages/core/src/scpi/session.ts:344-359 | settles at most the job in flight, as the state machine does |
| ScpiSessions.ScpiSession.HandleData | packages/core/src/scpi/session.ts:338-342 | a data event, as the state machine has it |
| ScpiSessions.ScpiSession.OnSent | packages/core/src/scpi/session.ts:274-279 | the send has settled: a write completes, a query arms its deadline and looks at the buffer |
| ScpiSessions.ScpiSession.OnRefused | packages/core/src/scpi/session.ts:280-282 | the send was refused: whatever is in flight fails |
| ScpiSessions.ScpiSession.OnDeadline | packages/core/src/scpi/session.ts:313-326 | a deadline fails its job only if that is still in flight |
| ScpiSessions.ScpiSession.Close | packages/core/src/scpi/session.ts:232-246 | an explicit close, as the state machine has it |
| ScpiSessions.ScpiSession.HandleClose | packages/core/src/scpi/session.ts:420-437 | loss of the transport, as the state machine has it |
| ScpiSessions.BuildFrame | packages/core/src/scpi/session.ts:285-311 | the byte array filled in place is the command and the terminator, with the data as a block between them if there are any |
| ByteArrays.EncodeIeee488Block | packages/sim/src/handlers/ieee488-block.ts:13-26 | the simulator's encoder refuses exactly payloads of 10^9 bytes or more, and otherwise fills an array with the same block the session sends |
| ByteArrays.SetBytes | packages/core/src/scpi/session.ts:303-309 | copying into a byte array changes the copied stretch and nothing else |
| DeviceScripts.DrainTakesFrames | packages/sim/src/simulator.ts:104-155 | however the outgoing stream is cut, a drain takes whole frames in order, leaves the device where those frames lead it, and has written their answers |
| DeviceScripts.DrainLeavesNoLine | packages/sim/src/simulator.ts:129-139 | a drain leaves no complete line in the buffer |
| DeviceScripts.FramesAreLines | packages/sim/src/simulator.ts:129-154 | a frame that holds LFs is answered as its lines are, one after the other |
| DeviceScripts.QuietAnswers | packages/sim/src/simulator.ts:137-154 | where only the last frame is answered nothing is heard before that frame is taken |
| Link.LinkCorrectness | packages/core/src/scpi/session.ts:232-437 | each settled job has settled with the device's own answer to it, or with a failed send if its frame was refused, or was pending at the close; a write may hold LFs and be taken as several lines. The runs hold calls, sends, deliveries, deadlines of jobs already settled, refusals of frames not yet taken or with nothing in flight, and both kinds of close, in every interleaving, and every chunking both ways except a chunk that ends between a block and its LF |
| Link.LinkProgress | packages/core/src/scpi/session.ts:248-359 | in the same runs, once nothing is under way and no send is outstanding, every accepted job has settled |
| LinkCommands.CommandTaken | packages/core/src/scpi/session.ts:285-291 | the line the device takes for a text job is the job's own command, whether lines end in LF or CR LF |
| LinkCommands.CommandsInOrder | packages/core/src/scpi/session.ts:263-291 | the state the device is in before each job is the one the earlier commands, in order of acceptance and without the refused ones, lead it to |
| LinkCommands.OutcomeMeaning | packages/core/src/scpi/session.ts:361-400 | a line resolves a query as its text, a block as its payload, and a write is done without an answer |
| LinkCommands.QueriesAnswered | packages/core/src/scpi/session.ts:232-437 | in every run of the link in which all jobs are text, a settled query has resolved with the very text or payload the device wrote back to its command |
| Link.DeadlineSound | packages/core/src/scpi/session.ts:313-326 | a deadline that strikes keeps every answer with its query if and only if its job is no longer in flight |
| Link.RefusalSound | packages/core/src/scpi/session.ts:280-282 | a refused send keeps every answer with its query if and only if its frame was not taken while its own job is in flight, or nothing is in flight |
| Link.DeliverySound | packages/core/src/scpi/session.ts:338-400 | a delivery keeps every answer with its query if and only if its chunk does not end between a block and its LF |
| Link.RunSound | packages/core/src/scpi/session.ts:232-437 | the key invariant over every such run: frames under way are exactly those taken by the transport and not by the device, and buffer plus bytes under way are exactly what is left of the answer to the query in flight |
| Link.BufferWaits | packages/core/src/scpi/session.ts:344-359 | what is buffered never suffices for a reply, so a send that settles late finds nothing to deliver |
| Simulator.OneReplyPerQuery | packages/sim/src/simulator.ts:137-154 | whatever the line holds, a query is answered with exactly one line, or one block and its terminator where its handler means to send a block, and a write with nothing, if the personality's own handlers do so |
| Simulator.NameShowsQuery | packages/sim/src/command.ts:24-47 | whether a line is a query can be told from the name its handler is looked up by |
| SimulatorReplies.CommandInLine | packages/sim/src/command.ts:24-47 | a command is the first word of its line, whatever white space is around it, in capitals and less one colon in front; it is a query if that word ends in a question mark |
| SimulatorReplies.WhoAnswers | packages/sim/src/session.ts:70-98 | the exact handler answers before any pattern, the first matching pattern before a canned response, and that before the common commands |
| SimulatorReplies.WhatIsWritten | packages/sim/src/simulator.ts:137-154 | what is written for each kind of result, and which errors join the queue |
| SimulatorReplies.UnknownCommand | packages/sim/src/session.ts:99-104 | an unknown command is an error -113, and a query gets an empty line for it |
| SimulatorReplies.BlankLineIsIgnored | packages/sim/src/session.ts:55-57 | a blank line draws nothing and changes nothing |
| SimulatorReplies.CommonReplies | packages/sim/src/handlers/scpi-common.ts:8-36 | what each common command is answered where a personality has nothing of its own, the oldest queued error leaving the queue as it is read |
| SimulatorReplies.ErrorsComeBack | packages/sim/src/handlers/scpi-common.ts:31-65 | an error pushed is the error read |
| SimulatorReplies.IdentityOverTheLink | packages/sim/src/session.ts:55-105 | end to end, in every run of the link in which all jobs are text: a settled `*IDN?` has resolved with the simulator's identity |
| Simulator.CommonProper | packages/sim/src/handlers/scpi-common.ts:8-36 | the common commands answer queries with one line and other commands with nothing |
| Simulator.SimulatorCooperates | packages/sim/src/simulator.ts:91-155 | a simulator with such a personality meets what the link theorem asks of a device |
| Simulator.SimulatedLinkCorrectness | packages/sim/src/simulator.ts:91-155 | session and simulator together, in the runs of the link theorem, so except for a chunk that ends between a block and its LF: every settled line query, block query and write has the simulator's own answer, or a failed send if its frame was refused, or was pending at the close |
| Simulator.Connection.OnData | packages/sim/src/simulator.ts:104-155 | one data event handles every complete line in order, writes their answers, and keeps the rest |
| Simulator.Connection.TakeLine | packages/sim/src/simulator.ts:108-118 | takes the first line less one CR, or nothing |
| ErrorRows.RowRoundTrip | packages/core/src/scpi/error-queue.ts:14-28 | printing a row and reading it back is the identity if and only if the message has no quote and no dangling backslash and the row is not the code-0 "no error" sentinel |
| ErrorRows.Reading | packages/core/src/scpi/error-queue.ts:18-27 | what any printed row is read as: with bare quotes or a dangling backslash the whole line under code 0; else the row with its message unescaped, or the empty queue if the code is 0 and the unescaped message contains "no error" |
| ErrorTexts.EscapedRoundTrip | packages/core/src/scpi/error-queue.ts:20-27 | a message with its quotes escaped comes back as it was meant |
| ErrorTexts.SpacesDoNotMatter | packages/core/src/scpi/error-queue.ts:18-24 | white space around a row and on either side of its comma makes no difference |
| ErrorTexts.NoErrorMeaning | packages/core/src/scpi/error-queue.ts:26 | the empty-queue row: code 0 and the words "no error" anywhere in the message, in any case |
| ErrorTexts.BlankIsEmpty | packages/core/src/scpi/error-queue.ts:18-19 | a blank answer means an empty queue |
| ErrorTexts.NoRowIsReported | packages/core/src/scpi/error-queue.ts:21-23 | an answer that is no row is an error with code 0 and that text |
| ErrorRows.SentinelReadsEmpty | packages/sim/src/handlers/scpi-common.ts:31-36 | the answer of an empty queue reads as the empty queue |
| ErrorQueues.DrainFifo | packages/core/src/scpi/error-queue.ts:33-58 | for any reader, whatever is queued or pushed meanwhile: the rows returned are the oldest, in order, up to the limit, the end of the queue or the first row that reads as empty; that one is lost and exactly the rest stays queued |
| ErrorQueues.DrainIsFifo | packages/core/src/scpi/error-queue.ts:33-58 | the same for the real reader, in terms of the rows pushed: a row comes back as it was if and only if it is readable, and the drain stops short only at the end of the queue or at the first row that reads as empty |
| ErrorQueues.DrainQuietQueue | packages/core/src/scpi/error-queue.ts:33-58 | with nothing pushed meanwhile, the first min(n, maxIterations) rows are returned and the rest stay if and only if none of those reads as empty |
| ErrorQueues.DrainSystErr | packages/core/src/scpi/error-queue.ts:33-58 | the drain loop against the simulator returns and leaves what the FIFO specification says, also when a query fails part way |
| ErrorQueues.Poll | packages/core/src/scpi/error-queue.ts:41-50 | one round of the drain takes the oldest row after those just pushed |
| ErrorQueues.ErrorQueue.Read | packages/sim/src/handlers/scpi-common.ts:31-36 | answers the oldest row and removes it, or the sentinel |
| ErrorQueues.ErrorQueue.Push | packages/sim/src/handlers/scpi-common.ts:58-65 | appends a row |
| ErrorQueues.ErrorQueue.Clear | packages/sim/src/handlers/scpi-common.ts:11-15 | `*CLS` empties the queue |
| ReadingLoops.LoopReferenceCounting | packages/server/src/ws/reading-scheduler.ts:73-187 | in every run loops in the map, keys with a subscriber and running timers correspond one to one, and no loop has two reads under way |
| ReadingLoops.ReadingCacheAgreement | packages/server/src/ws/reading-scheduler.ts:73-197 | in every run, on a session not removed, the latest update each subscriber was sent since it subscribed is the cached payload, late joiners included |
| ReadingLoops.NoStrayFrames | packages/server/src/ws/reading-scheduler.ts:152-197 | no loop of a session that has not been removed is in the state from which a frame goes astray |
| ReadingLoops.WhenFramesStray | packages/server/src/ws/reading-scheduler.ts:73-197 | a step sends a frame to a socket not subscribed to its key at that moment if and only if a read comes back for a loop that is gone, another loop serves its key, and the old loop lists a socket the new one does not |
| ReadingLoops.NoFramesAstray | packages/server/src/ws/reading-scheduler.ts:73-197 | in every run in which no removed session is subscribed to again, every frame goes only to sockets subscribed at that moment, removed sessions included |
| ReadingLoops.ReadsKeepComing | packages/server/src/ws/reading-scheduler.ts:113-160 | the first subscriber of a key starts a read at once, and every tick leaves its loop with exactly one read under way |
| LiveReadings.ReadReaches | packages/server/src/ws/reading-scheduler.ts:161-187 | the read of a live loop reaches everyone subscribed and no one else, as the last frame they were sent; a reading is cached and clears the error, an error is cached beside the reading there is |
| LiveReadings.LateJoiner | packages/server/src/ws/reading-scheduler.ts:93-111 | who joins a live loop is sent the cached reading at once, or the cached error if there is no reading |
| LiveReadings.OthersAreSilent | packages/server/src/ws/reading-scheduler.ts:73-197 | frames are sent only by reads and to late joiners |
| LiveReadings.CacheIsLastRead | packages/server/src/ws/reading-scheduler.ts:161-184 | in every run a loop caches the last reading made of it, and the error of its last read if that failed |
| LiveReadings.LatestReadingSeen | packages/server/src/ws/reading-scheduler.ts:73-197 | in every run everyone subscribed to a session not removed has seen, as the latest reading, the last one made of the key's loop |
| ReadingLoops.OutlivedReadIsSilent | packages/server/src/ws/reading-scheduler.ts:152-187 | a read that outlives its loop moves no live loop's cache, although the guard compares keys only, and sends nothing if and only if the key has no loop or the old loop lists no subscriber |
| ReadingLoops.RemovedStayDead | packages/server/src/ws/reading-scheduler.ts:141-150 | a loop of a removed session comes into the map if and only if such a session is subscribed to |
| ReadingLoops.ResubscribingRemovedSession | packages/server/src/ws/reading-scheduler.ts:147-150 | such a case: a read from before the removal reaches a socket that has unsubscribed since |
| ReadingLoops.WhoIsSubscribed | packages/server/src/ws/reading-scheduler.ts:73-150 | who is subscribed after each step, exactly, in terms of who was before |
| ReadingLoops.StepValid | packages/server/src/ws/reading-scheduler.ts:73-197 | every step keeps the scheduler invariant behind the run theorems |
| ReadingSchedulers.ReadingScheduler.Subscribe | packages/server/src/ws/reading-scheduler.ts:73-118 | joins or creates the loop, replays the cache and starts a read, as the state machine does |
| ReadingSchedulers.ReadingScheduler.Unsubscribe | packages/server/src/ws/reading-scheduler.ts:120-129 | leaves the loop and stops it when empty, as the state machine does |
| ReadingSchedulers.ReadingScheduler.RemoveSubscriber | packages/server/src/ws/reading-scheduler.ts:132-138 | the loop over all loops leaves each of them, as the state machine does |
| ReadingSchedulers.ReadingScheduler.RemoveSession | packages/server/src/ws/reading-scheduler.ts:141-145 | the loop over all loops stops exactly the session's, as the state machine does |
| ReadingSchedulers.ReadingScheduler.Tick | packages/server/src/ws/reading-scheduler.ts:152-160 | starts a read unless one is under way or the key has no loop |
| ReadingSchedulers.ReadingScheduler.OnRead | packages/server/src/ws/reading-scheduler.ts:161-197 | with a loop for its key, a reading is cached, clears the error and goes to all subscribers, and an error likewise; without one nothing happens |
| SubscriptionProtocol.SubscriptionAgreement | packages/web/src/stores/sessions.ts:107-192 | in every run, for every key, while the socket is open at both ends: the server's set after the queued messages is exactly the keys with a listener and those a removal notice made the store drop, so the ends agree on a key if and only if it is not one of these; the store's bookkeeping is exactly the keys with a listener; and subscribe and unsubscribe alternate for a key if and only if it was not listened to again after being dropped |
| Listeners.WhoListens | packages/web/src/stores/sessions.ts:73-192 | one step makes or ends one listener, or ends those of a session whose removal is heard of; all other listeners stay |
| Listeners.ListenersAreThoseAdded | packages/web/src/stores/sessions.ts:73-192 | in every run the store has exactly the listeners that were added and neither dropped nor told of their session's removal since |
| Listeners.FirstAndLast | packages/web/src/stores/sessions.ts:166-192 | in every run a subscribe is posted if and only if the first listener of a key is added, an unsubscribe if and only if the last is dropped, and nothing else by either |
| Listeners.EveryoneIsTold | packages/server/src/routes/ws.ts:85-89 | when a session closes every socket the server still has is told, and no other |
| SubscriptionProtocol.WhereAgreementIsLost | packages/web/src/stores/sessions.ts:73-85 | agreement on a key is lost exactly where a removal notice arrives for its session while it has a listener, not at the removal |
| SubscriptionProtocol.DroppedKeyLingers | packages/web/src/stores/sessions.ts:73-85 | a run from the start in which it is lost: the server keeps a key the store has dropped without a word |
| SubscriptionProtocol.ListeningAgainIsIgnored | packages/server/src/routes/ws.ts:118-121 | a panel that then listens again posts a subscribe the server ignores: it has a listener and no loop serves it |
| SubscriptionProtocol.ListenersAreServed | packages/server/src/routes/ws.ts:91-146 | once the queue is drained a reading topic has a listener if and only if the server runs a live loop with this socket, its timer running and the cached payload sent |
| SubscriptionProtocol.CleanupForgets | packages/server/src/routes/ws.ts:138-145 | after a socket's cleanup no live loop mentions it |
| SubscriptionProtocol.ReconnectRevivesRemovedSession | packages/web/src/stores/sessions.ts:119-131 | a store that missed the notice subscribes to the dead session on reconnect and the server starts a loop for it; the two ends agree about that |
| SubscriptionProtocol.RevivalRun | packages/web/src/stores/sessions.ts:119-145 | such a run from the start: listen, lose the connection, the session closes, connect again |
| SubscriptionProtocol.StepValid | packages/server/src/routes/ws.ts:111-145 | every step of browser, wire and server keeps the invariant behind the run theorems |
| SubscriptionEndpoints.SessionsStore.SubscribeTopic | packages/web/src/stores/sessions.ts:166-180 | adds the listener to those there are, and posts a subscribe only for the first on an open socket, as the protocol says |
| SubscriptionEndpoints.SessionsStore.UnsubscribeTopic | packages/web/src/stores/sessions.ts:181-191 | posts an unsubscribe only for the last listener of a subscribed key, as the protocol says |
| SubscriptionEndpoints.SessionsStore.OnOpen | packages/web/src/stores/sessions.ts:119-131 | the loop of the open handler subscribes every key again, in map order |
| SubscriptionEndpoints.SessionsStore.OnClose | packages/web/src/stores/sessions.ts:140-145 | forgets the socket and what was subscribed on it, keeps the listeners |
| SubscriptionEndpoints.SessionsStore.OnRemoved | packages/web/src/stores/sessions.ts:73-85 | drops exactly the listeners of the removed session, without a message |
| SubscriptionEndpoints.SessionsStore.Send | packages/web/src/stores/sessions.ts:107-111 | posts exactly when the socket is open |
| SubscriptionEndpoints.SocketHandler.OnMessage | packages/server/src/routes/ws.ts:111-136 | a message changes the set, and reaches the scheduler only if it does |
| SubscriptionEndpoints.SocketHandler.Cleanup | packages/server/src/routes/ws.ts:138-145 | empties the set and takes the socket out of every loop |
| Batches.BatchConservation | packages/server/src/ws/observability-scheduler.ts:23-145 | in every run, between removals of a session, what was flushed followed by what is pending is exactly what was emitted; a timer is armed if and only if someone listens and something waits; each subscriber has received one unbroken stretch |
| Feeds.NothingIsLost | packages/server/src/ws/observability-scheduler.ts:23-123 | in every run what was flushed and what waits on a feed are all the entries emitted on it, in order, since its session was last removed; a subscriber has received, or waits for, everything from when it joined |
| Feeds.WhoFollows | packages/server/src/ws/observability-scheduler.ts:44-103 | who follows a feed after each step, exactly, in terms of who did before |
| Feeds.OwedFromNow | packages/server/src/ws/observability-scheduler.ts:44-64 | a new subscriber is owed what waits when it joins and all that comes after |
| Feeds.TimerFlushes | packages/server/src/ws/observability-scheduler.ts:110-123 | the timer brings everyone who follows the feed all that waits, and nothing is left waiting |
| Feeds.RemovalForgets | packages/server/src/ws/observability-scheduler.ts:93-103 | a session's removal forgets what waits on both its topics and nothing of other sessions |
| Batches.StepValid | packages/server/src/ws/observability-scheduler.ts:23-145 | every emission, subscription, removal and timer keeps the ledger |
| Batches.EmptyEmissionArms | packages/server/src/ws/observability-scheduler.ts:105-113 | an empty emission would arm a timer with nothing pending, so the condition on emitters is needed |
| ObservabilitySchedulers.ObservabilityScheduler.OnEntries | packages/server/src/ws/observability-scheduler.ts:24-41 | collects a batch and schedules its flush, as the state machine does |
| ObservabilitySchedulers.ObservabilityScheduler.ScheduleFlush | packages/server/src/ws/observability-scheduler.ts:105-110 | arms the timer unless it is armed or nobody listens |
| ObservabilitySchedulers.ObservabilityScheduler.Subscribe | packages/server/src/ws/observability-scheduler.ts:44-64 | joins or creates the loop and schedules what is pending |
| ObservabilitySchedulers.ObservabilityScheduler.Unsubscribe | packages/server/src/ws/observability-scheduler.ts:66-80 | leaves, disarming with the last subscriber and keeping the pending batch |
| ObservabilitySchedulers.ObservabilityScheduler.RemoveSubscriber | packages/server/src/ws/observability-scheduler.ts:82-91 | the loop over all loops leaves each of them |
| ObservabilitySchedulers.ObservabilityScheduler.RemoveSession | packages/server/src/ws/observability-scheduler.ts:93-103 | forgets both topics of the session, and only those |
| ObservabilitySchedulers.ObservabilityScheduler.Fire | packages/server/src/ws/observability-scheduler.ts:110-123 | sends the whole pending batch to everyone subscribed now and empties it |
| SessionLifecycle.ConnectionOwnership | packages/server/src/sessions/manager.ts:174-258 | over every interleaving of open, reconnect, close, establish steps and peer loss: the map keeps its limit, no session has two establishes, every open connection is the `scpi` of exactly one session in the map, connected implies connection, rings, close listener and (if identified) facade, and error pollers run exactly for connected identified sessions |
| SessionLifecycle.ReconnectFits | packages/server/src/sessions/manager.ts:203-231 | reconnecting keeps the ownership invariant if and only if no failed establish of the session is still closing its connection |
| SessionProgress.ReconnectStarts | packages/server/src/sessions/manager.ts:203-231 | a session in error in the map is connecting again after `reconnect`, with one fresh establish and nothing else; any other is left as it is |
| SessionProgress.ReconnectConnects | packages/server/src/sessions/manager.ts:203-465 | and it is connected, over the new connection, when the instrument answers |
| SessionProgress.EstablishConnects | packages/server/src/sessions/manager.ts:374-465 | an establish that nothing disturbs connects the session, with driver, close listener and error poller as the identity asks, with or without a refine step |
| SessionProgress.FailureBringsDown | packages/server/src/sessions/manager.ts:468-490 | an establish that fails puts the session in error, with its connection closed and, once that has settled, nothing left |
| SessionProgress.LossBringsDown | packages/server/src/sessions/manager.ts:493-511 | a connected session that loses its connection is in error at once, with nothing left, and can be started again |
| SessionProgress.EstablishGivesUp | packages/server/src/sessions/manager.ts:391-422 | an establish whose session has left the map closes its connection at its next step, and ends |
| SessionProgress.GivingUpFails | packages/server/src/sessions/manager.ts:391-490 | if that close fails the establish fails, and closes what connection the session has before it ends |
| SessionProgress.OpenStarts | packages/server/src/sessions/manager.ts:174-201 | `open` puts a connecting session into the map if there is room, and changes nothing else |
| SessionProgress.CloseEnds | packages/server/src/sessions/manager.ts:233-253 | `close` takes the session out of the map, leaves nothing of it open, and touches no other |
| SessionProgress.TurnsAreApart | packages/server/src/sessions/manager.ts:203-511 | what happens to one session happens to no other |
| SessionLifecycle.OverlapLeaks | packages/server/src/sessions/manager.ts:468-490 | in that window the old establish takes away what the new one set up: connected without a connection, and a connection nobody closes |
| SessionLifecycle.LostBeforeListening | packages/server/src/sessions/manager.ts:374-432 | a turn leaves a session that is not in error without an open connection if and only if the connection is lost before the close listener is registered |
| SessionLifecycle.ConnectedButLost | packages/server/src/sessions/manager.ts:399-432 | a turn leaves a connected session without an open connection if and only if the establish connects it to a connection lost by then |
| SessionLifecycle.LostDuringRefine | packages/server/src/sessions/manager.ts:412-432 | a loss during `refine` still ends in a connected session, with a dead connection |
| SessionLifecycle.DeadButConnected | packages/server/src/sessions/manager.ts:203-208 | such a session takes no further turn; `reconnect` leaves it as it is |
| SessionLifecycle.TakeFits | packages/server/src/sessions/manager.ts:374-511 | every step of an establish, every settled close and every loss keeps the record's invariant |
| SessionLifecycle.CloseFits | packages/server/src/sessions/manager.ts:233-253 | `close` leaves no listener, no poller and no open connection |
| SessionLifecycle.StepValid | packages/server/src/sessions/manager.ts:174-511 | every event keeps the manager's invariant, connections and pollers of different sessions staying apart |
| SessionManagers.InternalSession.Reconnect | packages/server/src/sessions/manager.ts:203-231 | a record in error is connecting again, without connection or rings and with an establish under way; any other is unchanged |
| SessionManagers.InternalSession.Close | packages/server/src/sessions/manager.ts:237-251 | disposes listener and poller and closes the connection, as the state machine does |
| SessionManagers.InternalSession.Dispose | packages/server/src/sessions/manager.ts:237-244 | unregisters the listener and stops the poller, if any |
| SessionManagers.SessionManager.HandleUnexpectedClose | packages/server/src/sessions/manager.ts:493-511 | acts only on a connected session whose id is in the map, as the state machine does |
| SessionManagers.SessionManager.OnPeerLost | packages/server/src/sessions/manager.ts:430-432 | a connection is lost, and the session hears of it exactly if its close listener is registered |
| SessionManagers.SessionManager.OnFactoryResolved | packages/server/src/sessions/manager.ts:386-397 | adopts the connection, or closes it if the session's id has left the map |
| SessionManagers.SessionManager.OnIdn | packages/server/src/sessions/manager.ts:399-428 | what follows the identity, with and without a driver, as the state machine does |
| SessionManagers.SessionManager.OnRefined | packages/server/src/sessions/manager.ts:419-423 | what follows the refine step, as the state machine does |
| SessionManagers.InternalSession.Connect | packages/server/src/sessions/manager.ts:429-465 | connected, with close listener and, if identified, an error poller |
| SessionManagers.InternalSession.Fail | packages/server/src/sessions/manager.ts:468-474 | the catch block up to its await |
| SessionManagers.InternalSession.OnFailClosed | packages/server/src/sessions/manager.ts:477-489 | the catch block after its await |
| SessionManagers.SessionManager.Open | packages/server/src/sessions/manager.ts:174-201 | refuses exactly at the limit, otherwise adds one fresh record; the ownership invariant holds after it |
| SessionManagers.SessionManager.Reconnect | packages/server/src/sessions/manager.ts:203-231 | a record in the map that is in error starts again, as an establish from nothing; any other, and any id not in the map, is left alone; the ownership invariant is kept if and only if no failed establish of the record is still closing |
| SessionManagers.SessionManager.Close | packages/server/src/sessions/manager.ts:233-253 | takes the record out of the map and closes it, touches no other, and keeps the ownership invariant |
| SessionManagers.SessionManager.Turn | packages/server/src/sessions/manager.ts:203-511 | whatever comes next for a session, in the map or out of it, the objects do what the state machine does and keep its ownership invariant |
| SessionManagers.SessionManager.Ownership | packages/server/src/sessions/manager.ts:174-258 | on the objects: an open connection belongs to a record in the map, is its `scpi`, and is no other record's |
| Panics.PanicAccounting | packages/server/src/sessions/manager.ts:296-372 | in every run the history is the last `panicHistoryMax` results in completion order, and in each result every session of the map at the call appears once, touched or skipped with the right reason; a kill that answered is reported as it answered, one that threw or timed out as an error that touched nothing |
| Panics.PanicReports | packages/server/src/sessions/manager.ts:296-372 | when a panic finishes, the newest result says of each session in the map at its call what the run since has made of it |
| Panics.SortOut | packages/server/src/sessions/manager.ts:302-319 | the loop sorts the sessions, in map order, into killable and skipped |
| Panics.PanicHistory.Record | packages/server/src/sessions/manager.ts:334-337 | a result joins and the oldest leave |
| Panics.ResultAccounts | packages/server/src/sessions/manager.ts:321-332 | one panic's result accounts for every session it was called on, and for what each kill gave |
| OutputKill.RunDisableAll | packages/core/src/facades/output-kill.ts:84-109 | channels switched off one by one: touched and failed channels are in order those that did and did not obey, together exactly all of them |
| OutputKill.Classify | packages/core/src/facades/output-kill.ts:59-61 | ok, partial or error exactly as the two lists say |
| OutputKill.InExactlyOne | packages/core/src/facades/output-kill.ts:42-52 | with distinct channels, each is in exactly one of touched and errors |
| KeysightE36s.RunPsuDisableAll | packages/core/src/facades/output-kill.ts:27-62 | whatever calls fail, before or after taking effect: outputs are only ever switched off, setpoints stay, every touched channel is off at the end, each channel read is reported once, and with no failure all are off |
| KeysightE36s.KeysightE36.GetChannels | packages/core/src/drivers/keysight/e36.ts:90-100 | run alone it changes nothing but the register and reports each channel's own values, or nothing |
| KeysightE36s.KeysightE36.ReadChannel | packages/core/src/drivers/keysight/e36.ts:240-260 | reads the five values of the channel it selected |
| KeysightE36s.KeysightE36.SetChannelOutput | packages/core/src/drivers/keysight/e36.ts:102-105 | on success switches that channel and no other |
| KeysightE36s.KeysightE36.GetProtection | packages/core/src/drivers/keysight/e36.ts:168-188 | reads that channel's protection; only a failed trip query is glossed over |
| KeysightE36s.KeysightE36.GetTracking | packages/core/src/drivers/keysight/e36.ts:153-161 | true only if tracking is on; a failed query reads as off |
| Instruments.ProtectionReadsCommute | packages/server/src/ws/reading-scheduler.ts:246-262 | for every interleaving of the two concurrent protection reads of one channel, each gets the replies it would get one after the other |
| Instruments.OthersDoNotDisturb | packages/core/src/drivers/keysight/e36.ts:168-188 | any two read-only streams on one channel are answered, however interleaved, as if each were alone |
| Instruments.OffReachesItsChannel | packages/core/src/drivers/keysight/e36.ts:102-105 | with other reads between select and switch-off, exactly the channel selected last goes off; it is the intended one, unless that was off already, if and only if no other channel was selected after it |
| Instruments.PollDivertsDisable | packages/core/src/drivers/keysight/e36.ts:102-105 | a poll of another channel in between switches off the wrong one |
| RingBuffers.PagingMissesOnlyTheEvicted | packages/server/src/sessions/ring-buffers.ts:33-76 | over every interleaving of pushes and requests, a paging reader sees a strictly increasing, genuine run and misses exactly the entries that had left the ring when it came to ask for them |
| RingBuffers.RequestsGetAhead | packages/server/src/sessions/ring-buffers.ts:53-61 | every request gets the reader ahead by as much as it asked for, or to the end |
| RingBuffers.KeepingUp | packages/server/src/sessions/ring-buffers.ts:53-61 | a reader no more than `max` lines behind misses nothing |
| RingBuffers.TranscriptRing.Push | packages/server/src/sessions/ring-buffers.ts:42-51 | the ring stays the last `max` entries of the full transcript, numbered consecutively from 1 |
| RingBuffers.TranscriptRing.GetSince | packages/server/src/sessions/ring-buffers.ts:53-61 | the retained entries after `since`, oldest first, all of them unless the limit cuts them short, and always one if there is one |
| RingBuffers.TranscriptRing.Tail | packages/server/src/sessions/ring-buffers.ts:64-67 | the newest `limit` entries, or all for a limit of 0 |
| RingBuffers.TranscriptRing.MaxSeq | packages/server/src/sessions/ring-buffers.ts:73-75 | the number of the newest entry |
| RingBuffers.DeviceErrorRing.PushMany | packages/server/src/sessions/ring-buffers.ts:16-21 | the ring stays the last `max` of all errors pushed |
| Discovery.MergeConfluence | packages/server/src/discovery/service.ts:129-186 | two arrival orders that keep each host's own order have the same result, with one candidate per host, for any strict host order |
| Discovery.Dedupe | packages/server/src/discovery/service.ts:129-186 | the loops produce, in host order, one candidate for each host with a usable advertisement, as specified by that host's advertisements alone |
| Discovery.CollectIsLocal | packages/server/src/discovery/service.ts:141-161 | a host has an entry if and only if it has a usable advertisement, and the entry is the merge of its own advertisements only |
| Discovery.ToCandidateIsRight | packages/server/src/discovery/service.ts:171-184 | types are exactly those advertised, in order of preference; the port is the first seen of the most preferred; addresses are the union; TXT values are the first seen |
| Advertised.PreferredPort | packages/server/src/discovery/service.ts:163-197 | a candidate's port is that of SCPI raw if advertised, else VISA, HiSLIP, LXI, any other, in this order |
| Advertised.PortIsFirst | packages/server/src/discovery/service.ts:141-155 | the port kept for a type is that of the host's first advertisement of the type |
| Advertised.TxtIsFirst | packages/server/src/discovery/service.ts:157-160 | the value kept for a TXT key is that of the host's first advertisement that has it |
| Advertised.HostIsFirst | packages/server/src/discovery/service.ts:141-153 | a host is shown under the name of its first advertisement with a host name and a port |
| Advertised.OwnAreAll | packages/server/src/discovery/service.ts:141-143 | a host has all its advertisements with a host name and a port, case aside, and no others |
| Discovery.CandidateUnique | packages/server/src/discovery/service.ts:171-184 | a host's advertisements, in their order, decide its candidate |
| Discovery.Merge | packages/server/src/discovery/service.ts:155-160 | one pass of the merging loop |
| Discovery.DecorationIgnored | packages/server/src/discovery/service.ts:199-205 | underscore, suffix with domain, and case of a service type make no difference |
| Advertised.TypesByName | packages/server/src/discovery/service.ts:199-205 | which service type each name stands for |
| BrowseChain.OneScanAtATime | packages/server/src/discovery/service.ts:64-71 | in every run, whichever scans fail, a scan begins only when all called for before it have settled, so at most one runs; scans begin in call order; and none settles without having run |
| BrowseChain.OnlyCallersSeeFailures | packages/server/src/discovery/service.ts:64-71 | the caller learns how its own scan ended, while the promise the next scan waits for is never rejected |
| BrowseChain.ScansGoOn | packages/server/src/discovery/service.ts:64-71 | while a scan has not settled something can go on, so a failed scan does not hold up the next |
| BrowseChain.DiscoveryService.Browse | packages/server/src/discovery/service.ts:64-71 | chains the scan to the promise held, and holds the promise that takes any outcome of it for a success |
| Drivers.LongestMatchWins | packages/core/src/drivers/gw-instek/index.ts:91-118 | wherever a family stands, an identity no earlier entry claims resolves to the longest variant that prefixes the model at a word boundary, to the catch-all only if there is none |
| Drivers.OrderOfVariantsIsFree | packages/core/src/drivers/gw-instek/index.ts:73-77 | for names that differ by more than case, the order in which variants are listed is of no consequence |
| Drivers.BoundaryMeaning | packages/core/src/drivers/gw-instek/index.ts:94 | for a name that ends in a word character the pattern accepts exactly that name, case aside, alone or before a non-word character |
| Matching.VariantMeaning | packages/core/src/drivers/gw-instek/index.ts:94 | a variant pattern accepts its name, in any case, alone or before a character that is no letter, digit or underscore |
| Matching.IncludesMeaning | packages/core/src/identity/registry.ts:74-77 | a text pattern accepts what holds its text anywhere, in any case |
| Drivers.RegisterFamily | packages/core/src/drivers/gw-instek/index.ts:93-118 | the registration loop succeeds if and only if the new ids are distinct and free, and then appends variants longest first and the catch-all |
| Drivers.DriverRegistry.Register | packages/core/src/identity/registry.ts:48-53 | refuses exactly an id that is taken |
| Drivers.DriverRegistry.ResolveIdentity | packages/core/src/identity/registry.ts:61-71 | the loop returns the first entry that fits |
| Drivers.Resolve | packages/core/src/identity/registry.ts:61-71 | the entry found is the first that fits, and none is found only if none fits |
| Drivers.SortingWorks | packages/core/src/drivers/gw-instek/index.ts:73-77 | sorting by length keeps the names and puts longer ones first |
| Matching.SortIsStable | packages/core/src/drivers/gw-instek/index.ts:73-77 | sorting is stable: names of one length keep their order, and none is lost or doubled |

## Left out

- Sockets, DNS-SD, WebSockets and timers themselves: they are steps that may happen whenever they are possible, over FIFO channels; durations, timestamps, UUIDs and transcript origins are left out, and new ids are fresh by assumption.
- Text decoding: UTF-8, non-ASCII white space and case folding beyond ASCII; strings are byte strings.
- Floating point: readings and levels are integers, `parseFloat` and `parseBool` of replies are not modelled.
- Simulator.OneReplyPerQuery: handlers are synchronous functions, so a second data event never overlaps an asynchronous handler; command arguments are not parsed, and vendor personalities are represented by the condition `ProperPersonality`, which leaves out a handler that answers a block query with an error.
- Link.LinkCorrectness: leaves out runs in which the deadline of the query in flight strikes, a send is refused although its frame was taken and a job is in flight, or a chunk ends between a block and its LF while the block is awaited, because each of these, and of their kind only these, breaks the invariant that keeps replies with their queries (`DeadlineSound`, `RefusalSound`, `DeliverySound`). A frame refused part way through is left out. Every frame ends in LF; a write may hold further LFs, as a block payload can, while a query whose command text holds one is left out.
- Simulator.SimulatedLinkCorrectness: the same runs as `Link.LinkCorrectness`; the simulator writes a block and its terminator separately, so a chunk that ends between them can occur and is left out.
- ErrorRows.RowRoundTrip: the code is an unbounded integer, so the rounding of codes beyond 2^53 is not captured; a message with an LF, which the link would cut, is read back here in one piece; the `rawLine` and timestamp of a drained entry are not modelled.
- SubscriptionProtocol.SubscriptionAgreement: one browser store; observability topics take part in the set agreement but are not connected to `Batches`.
- SubscriptionProtocol.ListenersAreServed: claims nothing for removed sessions, whose loops are gone or, after a reconnect, revived (`ReconnectRevivesRemovedSession`).
- Listeners.WhoListens: what a panel's listener is called with is followed only as far as the socket.
- ReadingLoops.ReadingCacheAgreement: claims nothing for removed sessions, whose subscriber sets are never emptied.
- BrowseChain.OneScanAtATime: a scan is one step from its start to its end; what it collects is `Discovery`.
- ReadingSchedulers: loop objects are kept in a sequence and named by position instead of being heap objects of their own, so their aliasing is modelled by index.
- ObservabilitySchedulers: the pairs of maps for the two topics are one map with the topic in the key; the two debounce delays are not distinguished.
- SessionLifecycle.ConnectionOwnership: the `update` and `removed` events are not modelled, so an `update` after `removed`, which the code can emit, does not show; facades and drivers are reduced to whether they exist.
- Panics.PanicAccounting: a kill that times out is one that settles with an error; what it goes on to do to the instrument afterwards is not followed.
- KeysightE36s.RunPsuDisableAll: run alone on the port; what a concurrent poll does to it is `Instruments.OffReachesItsChannel`. Setpoint, pairing, preset and protection-setting commands are left out.
- `runEloadDisableAll`, one call and one branch, would only add an easy member.
- Discovery.Dedupe: host order is an abstract strict order in place of locale collation, and addresses are a set in place of its sorted list; classification by FQDN and subtypes, which happens before the merge, is left out.
- Drivers.LongestMatchWins: catch-all and manufacturer patterns are arbitrary tests in place of regular expressions; driver factories and refinement are left out.
- HTTP routes other than the WebSocket route, vendor drivers other than the E36, simulator personalities, the command line, Vue components, theme, saved connections and storage.
