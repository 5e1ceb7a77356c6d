# Verified models of the app-server client, daemon and analytics

A Dafny project about the parts of the repository where state, ordering and
failure meet: the two app-server clients, the schema canonicaliser, the
analytics pipeline, the daemon's lifecycle operations and the lint wrapper's
argument normaliser. `dafny verify dfyconfig.toml` checks all of it.

Reads, writes, clocks, other processes and the scheduling of the consumer are
parameters, so every theorem about a run quantifies over all of their
behaviours. Code that updates things in place is a class or a method with
loops, proved equal to a function on values; the theorems are about that
function.

| file | models |
|---|---|
| `Ordering.dfy`, `Json.dfy`, `JsonText.dfy` | string order, sorting, permutations; JSON values, the compact printer and its text |
| `Canonicalizer.dfy`, `CanonicalOrder.dfy` | canonical form of JSON schema fixtures; what it looks like |
| `EventForwarder.dfy` | the in-process worker's lossless and best-effort event path |
| `RemoteClient.dfy`, `RemoteExits.dfy`, `RemoteStream.dfy` | the remote client's handshake and request worker; what ends it; its event stream from end to end |
| `AnalyticsReducer.dfy`, `ReducerObject.dfy` | the analytics reducer as a function of facts and as an object |
| `ReducerTurns.dfy`, `ReducerReports.dfy`, `ReducerFields.dfy`, `ReducerContext.dfy` | theorems about turns, when they are reported and with what, and about thread context |
| `ReducerReviews.dfy`, `ReducerVerdicts.dfy`, `ReducerTools.dfy` | theorems about reviews, their verdicts and the tool items they belong to |
| `AnalyticsClient.dfy` | request batching and de-duplication |
| `AcceptedLines.dfy` | the unified-diff scanner, and a printer of structured git diffs |
| `Daemon.dfy`, `DaemonObject.dfy` | lifecycle operations as functions of the host and as an object |
| `DaemonSafety.dfy`, `DaemonResults.dfy`, `DaemonFailures.dfy` | what every operation keeps; its exact result; exactly when a failing one does damage |
| `RemoteControl.dfy` | enabling remote control and waiting for it to settle |
| `LintArgs.dfy`, `LintDefaults.dfy` | parsing and rebuilding the lint command line; the defaults it adds |

Four natural statements are false of the code as it stands. Each has an exact
condition and a failing input:

- The lag markers account for every dropped event, except once the saturating
  counter has been incremented at its top, which takes more than 2^64 actions
  (`CountExactIff`, `ShortRunsCountExactly`, `CountCanFail`).
- The three facts that make up a turn event may come in any order, provided the
  start request and the resolved config agree (`OrderImmaterialIff`,
  `LastWriterWins`).
- Normalising a lint command line is idempotent, unless the manifest path is
  `--` (`IdempotentIff`, `SeparatorPathGrowsForever`).
- A running managed server has the saved setting, except after a failed call
  that had already saved: the settings are written before the managed binary is
  looked for and the server is stopped (`ExecuteBreaksIff`,
  `AlwaysConsistentIff`, `SetCanBreak`).

## Model

| member | source | states |
|---|---|---|
| `Canonicalizer.CanonDecidesEquiv` | codex-rs/app-server-protocol/src/schema_fixtures.rs:152-227 | two valid values have equal canonical forms if and only if they are related by the congruence that reorders object entries and permutes arrays of scalars, references and titled objects |
| `Canonicalizer.CanonIsEquiv` | codex-rs/app-server-protocol/src/schema_fixtures.rs:152-208 | the canonical form stays in the congruence class of the value |
| `Canonicalizer.CanonIdempotent` | codex-rs/app-server-protocol/src/schema_fixtures.rs:152-208 | canonicalising twice is canonicalising once |
| `Canonicalizer.CanonKeepsSortKey` | codex-rs/app-server-protocol/src/schema_fixtures.rs:210-227 | canonicalising never changes the sort key of an item |
| `Canonicalizer.KeyedIff` | codex-rs/app-server-protocol/src/schema_fixtures.rs:210-227 | an item has a sort key if and only if it is null, a boolean, a number, a string, or an object with a string under `$ref` or `title` |
| `CanonicalOrder.CanonicalArray` | codex-rs/app-server-protocol/src/schema_fixtures.rs:174-195 | an array of such items comes out in ascending order of kind, then text, then compact form; any other array keeps its order; no item is lost |
| `CanonicalOrder.PlaceIsKey` | codex-rs/app-server-protocol/src/schema_fixtures.rs:210-227 | the kind and text that place an item: a string `$ref` wins over a title |
| `CanonicalOrder.OrderForgotten` | codex-rs/app-server-protocol/src/schema_fixtures.rs:174-195 | the order of such items in an array does not matter to the canonical form |
| `CanonicalOrder.CanonicalObject` | codex-rs/app-server-protocol/src/schema_fixtures.rs:197-205 | the entries of an object come out strictly ascending by key |
| `CanonicalOrder.TitlesAscend` | codex-rs/app-server-protocol/src/schema_fixtures.rs:219-220 | two titled objects come out by title, whichever way round they went in |
| `CanonicalOrder.LexLessIff` | codex-rs/app-server-protocol/src/schema_fixtures.rs:186-193 | what ascending means: the first difference decides, and a prefix comes first |
| `Canonicalizer.CanonValid` | codex-rs/app-server-protocol/src/schema_fixtures.rs:152-208 | distinct keys and number ranges survive |
| `Canonicalizer.CanonicalizeJson` | codex-rs/app-server-protocol/src/schema_fixtures.rs:152-208 | the recursive procedure with its loops computes the canonical form |
| `Canonicalizer.ArrangeItems` | codex-rs/app-server-protocol/src/schema_fixtures.rs:174-195 | tagging, sorting by (key, printed text) and untagging gives the arranged array; one item without a key leaves the order alone |
| `Canonicalizer.CanonicalizeEntries` | codex-rs/app-server-protocol/src/schema_fixtures.rs:197-205 | sorting the entries by key and canonicalising each value in turn |
| `Json.PrintInjective` | codex-rs/app-server-protocol/src/schema_fixtures.rs:180-193 | the compact text used to break ties is equal only for equal values, so the sort has no real ties |
| `JsonText.PrintsText` | codex-rs/app-server-protocol/src/schema_fixtures.rs:180 | the tie-breaking text is the compact JSON text |
| `JsonText.EscapeDecodes` | codex-rs/app-server-protocol/src/schema_fixtures.rs:180 | its escapes stand for the characters they replace, as RFC 8259 section 7 has it |
| `JsonText.DecimalReads` | codex-rs/app-server-protocol/src/schema_fixtures.rs:214 | its digits stand for the number printed |
| `EventForwarder.RunKeepsBooks` | codex-rs/app-server-client/src/lib.rs:207-273 | over every schedule of pulled events and consumer reads: the queue never exceeds capacity, taken plus queued is exactly what was sent, the sent items with lag markers expanded to holes match the pulled events position by position with holes only on best-effort events, and failed server requests are exactly the refreshes and the dropped ones, in input order |
| `EventForwarder.ForwardMeets` | codex-rs/app-server-client/src/lib.rs:207-273 | one forwarded event has one fate (sent, dropped and counted, or failed) and the books stay balanced, whatever the consumer does while a send blocks or between the two sends |
| `EventForwarder.PullKeeps` | codex-rs/app-server-client/src/lib.rs:551-597 | so does one turn of the worker loop, including the token-refresh rejection and a stream the consumer has closed |
| `EventForwarder.LosslessAllArrive` | codex-rs/app-server-client/src/lib.rs:207-273 | while the stream is enabled every lossless event pulled reaches the channel, in order and unchanged |
| `EventForwarder.DropsOnlyWhenFull` | codex-rs/app-server-client/src/lib.rs:231-270 | over every run an event is dropped only when the channel holds exactly its capacity |
| `EventForwarder.EveryHoleLogged` | codex-rs/app-server-client/src/lib.rs:231-270 | and every hole is such a drop |
| `EventForwarder.FirstEventsKept` | codex-rs/app-server-client/src/lib.rs:261-262 | no run drops any of the first events that fit in the channel |
| `EventForwarder.DeliveredWhenRoom` | codex-rs/app-server-client/src/lib.rs:261-262 | with nothing owed and a slot free, a best-effort event is sent |
| `EventForwarder.ReportedWhenRoom` | codex-rs/app-server-client/src/lib.rs:231-270 | with drops owed and a slot free, the marker is sent with their count, and the event after it if there is room |
| `EventForwarder.LosslessDelivered` | codex-rs/app-server-client/src/lib.rs:252-259 | a lossless event is sent once the consumer has made room |
| `EventForwarder.LosslessIff` | codex-rs/app-server-client/src/lib.rs:151-190 | which events are lossless |
| `EventForwarder.FailureCodes` | codex-rs/app-server-client/src/lib.rs:551-597 | a token refresh is failed with -32000, a dropped request with -32001, no other request at all |
| `EventForwarder.CountExactIff` | codex-rs/app-server-client/src/lib.rs:231-270 | the reported and pending drop counts account for every event if and only if the saturating counter was never incremented at its top |
| `EventForwarder.ShortRunsCountExactly` | codex-rs/app-server-client/src/lib.rs:231-270 | so every run of at most 2^64 actions is counted exactly |
| `EventForwarder.CountCanFail` | codex-rs/app-server-client/src/lib.rs:261-270 | one action more is enough: a schedule on which the saturated counter under-reports |
| `EventForwarder.InProcessWorker.constructor` | codex-rs/app-server-client/src/lib.rs:491-502 | an empty channel with at least one slot, stream enabled |
| `EventForwarder.InProcessWorker.ForwardInProcessEvent` | codex-rs/app-server-client/src/lib.rs:207-273 | the worker object moves exactly as the forwarding step, and reports whether to go on |
| `EventForwarder.InProcessWorker.HandleEvent` | codex-rs/app-server-client/src/lib.rs:551-597 | the event branch of the worker loop moves exactly as one pull |
| `EventForwarder.RunWorker` | codex-rs/app-server-client/src/lib.rs:499-600 | the worker after any schedule is in the state of the run, within capacity, with balanced books and no drop below capacity |
| `RemoteClient.EveryWaiterAnsweredOnce` | codex-rs/app-server-client/src/remote.rs:208-468 | in every run each accepted waiter has one reply or is still pending; once the worker has exited each has exactly one |
| `RemoteClient.WaiterGetsFirstAnswer` | codex-rs/app-server-client/src/remote.rs:316-325 | for every continuation a pending waiter's whole reply log is the first answer addressed to its id: result, server error, or the exit error |
| `RemoteClient.AnsweredForever` | codex-rs/app-server-client/src/remote.rs:316-325 | a waiter once answered is never answered again |
| `RemoteClient.DuplicateNeverDisplaces` | codex-rs/app-server-client/src/remote.rs:220-229 | a request under a pending id gets the duplicate-id error and leaves the original waiter pending |
| `RemoteExits.ReceiveExitsIff` | codex-rs/app-server-client/src/remote.rs:312-455 | a worker exits on a frame if and only if it is a close, a transport failure, the end of the stream, invalid JSON-RPC or an unsupported request whose rejection fails, or carries an event for a consumer that is gone |
| `RemoteExits.FatalFrame` | codex-rs/app-server-client/src/remote.rs:387-454 | each of these adds exactly one disconnect and gives every pending waiter exactly the error of its kind |
| `RemoteExits.OtherFrame` | codex-rs/app-server-client/src/remote.rs:314-386 | any other frame answers one waiter, sends one event, writes one -32601 rejection or does nothing, and nothing else |
| `RemoteExits.CommandExitsIff` | codex-rs/app-server-client/src/remote.rs:219-310 | a command ends the worker if and only if it is a shutdown or a new request that cannot be written |
| `RemoteExits.NewRequest` | codex-rs/app-server-client/src/remote.rs:220-253 | a request written becomes the waiter of its id; one that is not gets its own error and everybody else the lost connection |
| `RemoteExits.DuplicateTold` | codex-rs/app-server-client/src/remote.rs:222-228 | a request under a pending id is told so by that id |
| `RemoteExits.PlainCommand` | codex-rs/app-server-client/src/remote.rs:254-309 | a one-way command is answered with its write; a shutdown with its close, and the rest with the closed channel |
| `RemoteExits.RunExitsIff` | codex-rs/app-server-client/src/remote.rs:208-468 | over every run the worker has exited if and only if some input met an ending condition |
| `RemoteExits.HandshakeStopsAt` | codex-rs/app-server-client/src/remote.rs:824-912 | the frames the handshake stops at |
| `RemoteClient.HearArrival` | codex-rs/app-server-client/src/remote.rs:824-912 | one turn of the handshake loop goes on exactly for the frames that do not end it, ends well exactly for the initialize response, and buffers exactly what the frame decodes to |
| `RemoteClient.InitializeRemoteConnection` | codex-rs/app-server-client/src/remote.rs:798-933 | the handshake succeeds if and only if both writes do and the first frame that ends it is the initialize response; the buffered events are the decoding of the frames read |
| `RemoteClient.StreamIsDecoding` | codex-rs/app-server-client/src/remote.rs:312-455 | the events of a worker with a live consumer are the in-order decoding of the frames read, then at most one disconnect, at exit |
| `RemoteClient.RemoteWorker.OnRequest` | codex-rs/app-server-client/src/remote.rs:220-253 | registers, refuses or fails a request exactly as the run's step, keeping one reply per waiter |
| `RemoteClient.RemoteWorker.OnCommand` | codex-rs/app-server-client/src/remote.rs:219-310 | every command moves the worker as the run's step |
| `RemoteClient.RemoteWorker.OnFrame` | codex-rs/app-server-client/src/remote.rs:312-455 | every frame moves the worker as the run's step |
| `RemoteClient.RemoteWorker.Drain` | codex-rs/app-server-client/src/remote.rs:459-467 | every waiter still pending gets the exit error |
| `RemoteClient.DrainPending` | codex-rs/app-server-client/src/remote.rs:465-467 | draining the map in any order sends each pending waiter one reply and touches no other log |
| `RemoteClient.RunWorker` | codex-rs/app-server-client/src/remote.rs:208-468 | the worker task over any inputs ends in the state of the run, with one reply per waiter |
| `RemoteStream.Converse` | codex-rs/app-server-client/src/remote.rs:188-476 | for every wire, position of the initialize response and scheduling, a connection succeeds if and only if the writes do and the response comes first, and what repeated `next_event` calls yield is the in-order decoding of the frames read by handshake and worker, then at most one disconnect, last |
| `RemoteStream.StreamIsDecodingOfWire` | codex-rs/app-server-client/src/remote.rs:312-455 | handshake buffer and worker channel together are the decoding of a prefix of the wire, all that was read while the worker lives, and one disconnect only once it has exited |
| `RemoteStream.HandshakeIsTransparent` | codex-rs/app-server-client/src/remote.rs:822-914 | handshake and worker deliver what one reader of the whole wire would, disconnect included |
| `RemoteStream.InitializePositionIrrelevant` | codex-rs/app-server-client/src/remote.rs:822-914 | two wires that differ only in where the initialize response falls yield the same stream, under any two schedulings, whenever both handshakes succeed |
| `RemoteStream.ResponseInTimeIff` | codex-rs/app-server-client/src/remote.rs:832-848 | the handshake at that position succeeds if and only if nothing put ahead of the response ends it |
| `RemoteStream.RemoteAppServerClient.NextEvent` | codex-rs/app-server-client/src/remote.rs:603-608 | yields the head of buffer plus channel and leaves its tail; with nothing left it waits if and only if the worker is alive, and ends otherwise |
| `RemoteStream.RemoteAppServerClient.TakeAll` | codex-rs/app-server-client/src/remote.rs:603-608 | calling it until it waits or ends yields all that was left, in order |
| `ReducerTurns.JoinInAnyOrder` | codex-rs/analytics/src/reducer.rs:1474-1525 | with agreeing thread and image count, start response, resolved config and completion in any order emit nothing at the first two and exactly one turn event at the third, with the same event and the same final state for all six orders |
| `ReducerTurns.OrderImmaterialIff` | codex-rs/analytics/src/reducer.rs:786-812 | the order is immaterial if and only if request and config agree on thread and image count |
| `ReducerTurns.LastWriterWins` | codex-rs/analytics/src/reducer.rs:599-623 | the two orders whose events differ when they disagree: the later writer's thread and image count are reported |
| `ReducerTurns.TurnEventsBounded` | codex-rs/analytics/src/reducer.rs:1191-1225 | in every run a turn's events are at most its completions, its resolved configs and its matched start responses, less what is still unspent |
| `ReducerTurns.StepConserves` | codex-rs/analytics/src/reducer.rs:1474-1525 | what a turn held or a fact brought (completion, config, connection) is afterwards still held or has paid for exactly one event |
| `ReducerTurns.TurnEventsAtMostStartRequests` | codex-rs/analytics/src/reducer.rs:568-597 | in every run turn events plus outstanding starts never exceed the turn-start requests ingested |
| `ReducerReports.ReportedExactlyOnceIff` | codex-rs/analytics/src/reducer.rs:1474-1525 | in every run in which a turn's matched start, config and completion come once each, in any order and with any facts between, it is reported exactly once if and only if some fact checks the join after all three with its context known, and otherwise not at all |
| `ReducerReports.ReportedOnceWhenKnown` | codex-rs/analytics/src/reducer.rs:1474-1525 | in particular exactly once, if the connection and metadata are known as the last of the three arrives |
| `ReducerReports.RunConserves` | codex-rs/analytics/src/reducer.rs:1474-1525 | in every run, what came at most once for a turn is still held or was reported: nothing is lost |
| `ReducerTurns.RecordCounts` | codex-rs/analytics/src/reducer.rs:352-374 | recording an item raises the count of its kind and no other, exactly for the kinds that are tracked, and keeps the total equal to the sum |
| `ReducerTurns.ToolCountsExact` | codex-rs/analytics/src/reducer.rs:1097-1128 | in every run a live turn's count of each kind is the number of tracked completions since its state was created, and the total is the sum |
| `ReducerTurns.EmittedCountsExact` | codex-rs/analytics/src/reducer.rs:2490-2498 | every turn event emitted carries those exact counts |
| `ReducerFields.RecordsExact` | codex-rs/analytics/src/reducer.rs:568-646 | in every run each field of a live turn is what the facts since it began last said of it |
| `ReducerFields.TurnEventCarries` | codex-rs/analytics/src/reducer.rs:2420-2518 | a turn event carries the record as the reporting fact left it, with its connection's client and its thread's metadata |
| `ReducerFields.AcceptedLinesFollow` | codex-rs/analytics/src/reducer.rs:2390-2418 | the accepted-line event follows it if and only if the last diff added or deleted anything |
| `ReducerFields.ChecksIff` | codex-rs/analytics/src/reducer.rs:599-646 | the facts that check whether a turn is complete |
| `ReducerFields.RequestsKept` | codex-rs/analytics/src/reducer.rs:568-597 | in every run the requests kept are those nothing has responded to |
| `ReducerFields.SteerEmits` | codex-rs/analytics/src/reducer.rs:1341-1405 | a steer is reported on acceptance or rejection with what was asked, if its connection and thread are known |
| `ReducerFields.ThreadStep` | codex-rs/analytics/src/reducer.rs:489-543 | opening a thread overwrites its record, spawning it only fills in what is missing |
| `ReducerFields.ClientsKept` | codex-rs/analytics/src/reducer.rs:489-512 | a connection is known by the client that last initialised it |
| `ReducerFields.ThreadEmits` | codex-rs/analytics/src/reducer.rs:1230-1275 | a thread is reported as it opens on a known connection and as it is spawned |
| `ReducerFields.PassingEmits` | codex-rs/analytics/src/reducer.rs:648-750 | facts that join nothing emit one event each and change nothing |
| `ReducerTools.ToolEventsExact` | codex-rs/analytics/src/reducer.rs:1097-1147 | in every run the tool events for an item number exactly its completions that found the turn, the start and the context, at a real time and with a terminal status |
| `ReducerTools.ReportsCarry` | codex-rs/analytics/src/reducer.rs:1134-1146 | each carries the time of the last start, its own time, and a summary of exactly the reviews closed since the last report, or none |
| `ReducerTools.StartsKept` | codex-rs/analytics/src/reducer.rs:1074-1096 | in every run the start times kept are those of items started and not yet completed in a live turn |
| `ReducerTools.TrackedIff` | codex-rs/analytics/src/reducer.rs:1589-1608 | the seven kinds of item that are tools |
| `ReducerContext.RunKeepsConnected` | codex-rs/analytics/src/reducer.rs:489-543 | in every reachable state a thread's connection names an initialised one and every known thread has metadata |
| `ReducerContext.ContextOnlyLacksThreadConnection` | codex-rs/analytics/src/reducer.rs:1527-1563 | hence the missing-connection and missing-metadata branches are dead: the lookup fails if and only if the thread is unknown or has no connection |
| `ReducerContext.ChainInherits` | codex-rs/analytics/src/reducer.rs:514-543 | a chain of new subagent threads of any depth, started parent first, inherits the root's connection |
| `ReducerReviews.SummaryCountsReviews` | codex-rs/analytics/src/reducer.rs:1407-1472 | in every reachable state an item's summary counts, by reviewer and in total, exactly the reviews closed for that thread, turn and item since it was last removed |
| `ReducerReviews.ClosesAtMostOnce` | codex-rs/analytics/src/reducer.rs:939-1022 | each approval request closes at most one review however many responses and aborts follow |
| `ReducerReviews.ReviewedAtMostOnce` | codex-rs/analytics/src/reducer.rs:1407-1453 | the user review events emitted for a request are exactly its closings with the context known, and at most one each time it is asked |
| `ReducerReviews.AnswerReviews` | codex-rs/analytics/src/reducer.rs:939-1022 | an answer or abort emits one user review event if and only if the request was open and its thread's context is known |
| `ReducerReviews.ReviewsComeFromAnswers` | codex-rs/analytics/src/reducer.rs:1407-1453 | every user review event of a run comes from such a fact |
| `ReducerVerdicts.PendingKept` | codex-rs/analytics/src/reducer.rs:823-937 | in every run the reviews kept open are those asked for and not answered, as they were asked |
| `ReducerVerdicts.AnswerEmits` | codex-rs/analytics/src/reducer.rs:939-1022 | an answer emits exactly the open review with its verdict, or nothing without one or without context |
| `ReducerVerdicts.GuardianEmits` | codex-rs/analytics/src/reducer.rs:1299-1339 | a guardian's review is reported if and only if it has a verdict, real times and a context |
| `ReducerVerdicts.SummarySays` | codex-rs/analytics/src/reducer.rs:1455-1472 | in every run a summary's outcome is the last closing's and its flags those of all closings since the last report |
| `ReducerVerdicts.OutcomeTable` | codex-rs/analytics/src/reducer.rs:2204-2220 | which outcome a reviewer's verdict shows as |
| `ReducerVerdicts.ReviewAsks` | codex-rs/analytics/src/reducer.rs:823-937 | the subject and flags of the review each approval request opens |
| `ReducerVerdicts.AttachesIff` | codex-rs/analytics/src/reducer.rs:1610-1621 | which reviews attach to an item |
| `ReducerObject.AnalyticsReducerObject.MaybeEmitTurnEvent` | codex-rs/analytics/src/reducer.rs:1474-1525 | the emission on the object is the emission on the state value |
| `ReducerObject.AnalyticsReducerObject.IngestConnectionFact` | codex-rs/analytics/src/reducer.rs:489-543 | connection and thread facts change the maps as the state function says |
| `ReducerObject.AnalyticsReducerObject.IngestTurnStartResponse` | codex-rs/analytics/src/reducer.rs:786-812 | consumes the matching request, updates the turn and emits if complete |
| `ReducerObject.AnalyticsReducerObject.IngestTurnSteerResponse` | codex-rs/analytics/src/reducer.rs:1341-1364 | consumes the matching request and emits a steer event |
| `ReducerObject.AnalyticsReducerObject.IngestErrorResponse` | codex-rs/analytics/src/reducer.rs:1024-1072 | consumes the matching request and emits a rejection for a steer |
| `ReducerObject.AnalyticsReducerObject.IngestTurnFact` | codex-rs/analytics/src/reducer.rs:568-646 | turn facts change the maps and emit as the state function says |
| `ReducerObject.AnalyticsReducerObject.IngestItemFact` | codex-rs/analytics/src/reducer.rs:1074-1190 | item notifications change the maps and emit as the state function says |
| `ReducerObject.AnalyticsReducerObject.RecordItemReviewSummary` | codex-rs/analytics/src/reducer.rs:1455-1472 | adds one review to the summary of its item, if it has one |
| `ReducerObject.AnalyticsReducerObject.IngestReviewFact` | codex-rs/analytics/src/reducer.rs:823-1022 | approval requests, responses and aborts change the maps and emit as the state function says |
| `ReducerObject.AnalyticsReducerObject.IngestFact` | codex-rs/analytics/src/reducer.rs:377-487 | every fact moves the object as the state function says |
| `ReducerObject.IngestAll` | codex-rs/analytics/src/reducer.rs:377-487 | the object after any facts is in the state of the run: connected, with no more turn events than start requests, every tool count exact and every review summary exact |
| `AnalyticsClient.TrackEventRequestBatches` | codex-rs/analytics/src/client.rs:413-434 | flattening gives the input back, no batch is empty, every isolated event is alone, and every other split with these properties has more batches |
| `AnalyticsClient.TightIsFewest` | codex-rs/analytics/src/client.rs:413-434 | a valid split in which no two neighbours could merge has the fewest batches and is the only one that small |
| `AnalyticsClient.RunKeepsBound` | codex-rs/analytics/src/client.rs:84-115 | over every run the key set stays within 4096 and each key's admissions stay within the sets begun |
| `AnalyticsClient.AdmissionsBounded` | codex-rs/analytics/src/client.rs:84-115 | after D admissions no key has been admitted more than D/4096 times, rounded up |
| `AnalyticsClient.AdmittedIff` | codex-rs/analytics/src/client.rs:96-99 | after any run the next keyed event is admitted if and only if its key has not been since the last multiple of 4096 admissions |
| `AnalyticsClient.AnalyticsEventsQueue.ShouldEnqueueAppUsed` | codex-rs/analytics/src/client.rs:84-100 | an app without a connector always passes; otherwise the set moves as one admission and the answer is whether the key was new |
| `AnalyticsClient.AnalyticsEventsQueue.ShouldEnqueuePluginUsed` | codex-rs/analytics/src/client.rs:102-115 | likewise for plugins, leaving the apps alone |
| `AcceptedLines.ScannerReadsGitDiffs` | codex-rs/analytics/src/accepted_lines.rs:30-83 | for every structured diff printed in git form the scan gives its added and deleted counts and its (path, normalised line) pairs in order, even for content lines that look like headers |
| `AcceptedLines.SummariesAdd` | codex-rs/analytics/src/accepted_lines.rs:30-83 | summaries add up over the concatenation of a diff that ends a line and one that starts a file |
| `AcceptedLines.PathKeptIff` | codex-rs/analytics/src/accepted_lines.rs:143-155 | a new-side path is read back unchanged if and only if it does not end in white space |
| `AcceptedLines.OldSidePath` | codex-rs/analytics/src/accepted_lines.rs:149-153 | an `a/` prefix is stripped as well |
| `AcceptedLines.OtherPath` | codex-rs/analytics/src/accepted_lines.rs:143-155 | any other path is taken as it stands, and only `/dev/null` is none |
| `AcceptedLines.EffectiveLineNormal` | codex-rs/analytics/src/accepted_lines.rs:157-169 | a normalised line has the words of the original and is its own normal form |
| `AcceptedLines.EffectiveIff` | codex-rs/analytics/src/accepted_lines.rs:157-169 | a line counts if and only if its normal form has more than three bytes and a letter, digit or underscore |
| `AcceptedLines.NormalKeepsVisible` | codex-rs/analytics/src/accepted_lines.rs:158 | normalising changes white space only |
| `AcceptedLines.SpaceIff` | codex-rs/analytics/src/accepted_lines.rs:158 | what white space is |
| `AcceptedLines.EffectiveLineStripped` | codex-rs/analytics/src/accepted_lines.rs:157-169 | a trailing carriage return does not change the normalised line |
| `AcceptedLines.ScanDiff` | codex-rs/analytics/src/accepted_lines.rs:30-83 | the loop over path, hunk flag, counters and list computes the summary |
| `DaemonSafety.EveryRunIsSafe` | codex-rs/app-server-daemon/src/lib.rs:294-433 | over every serial run on a host with no pid files yet, any settings and any processes, with any failures and any processes dying and arriving between steps: only processes the daemon launched are ever signalled, and unless a call that writes the settings failed, a running managed server has the saved setting |
| `DaemonSafety.RunKeeps` | codex-rs/app-server-daemon/src/lib.rs:276-292 | both invariants are kept along any run from any sound state |
| `DaemonSafety.ExecuteKeeps` | codex-rs/app-server-daemon/src/lib.rs:276-292 | each operation keeps consistency if it succeeds, refuses, or does not write the settings; a refusal over an unmanaged server changes and signals nothing |
| `DaemonSafety.StartKeeps` | codex-rs/app-server-daemon/src/lib.rs:294-330 | start never writes the settings; a server it starts has the saved one |
| `DaemonSafety.RestartRepairs` | codex-rs/app-server-daemon/src/lib.rs:332-357 | a successful restart leaves the host consistent, from any state; it never writes the settings |
| `DaemonSafety.StopKeeps` | codex-rs/app-server-daemon/src/lib.rs:405-433 | after a successful stop no managed server runs; an unmanaged one is refused and left alone |
| `DaemonSafety.VersionKeeps` | codex-rs/app-server-daemon/src/lib.rs:435-446 | asking for the version touches nothing |
| `DaemonSafety.BootstrapRepairs` | codex-rs/app-server-daemon/src/lib.rs:574-614 | a successful bootstrap saves the setting and leaves the host consistent, from any state, even unreadable settings |
| `DaemonSafety.SetKeeps` | codex-rs/app-server-daemon/src/lib.rs:525-572 | a successful call leaves the setting saved and keeps consistency; a refusal changes nothing |
| `DaemonSafety.TryRestartKeeps` | codex-rs/app-server-daemon/src/lib.rs:360-403 | the updater's restart never writes the settings; if it restarts or finds nothing running the host is consistent |
| `DaemonSafety.EnsureKeeps` | codex-rs/app-server-daemon/src/lib.rs:491-508 | a success leaves remote control enabled in the settings and keeps consistency |
| `DaemonSafety.StartBringsUp` | codex-rs/app-server-daemon/src/lib.rs:319-329 | a start that reports the server started has launched it with the saved setting |
| `DaemonSafety.RestartBringsUp` | codex-rs/app-server-daemon/src/lib.rs:342-356 | a successful restart has launched a server with the saved setting |
| `DaemonSafety.SetBringsUp` | codex-rs/app-server-daemon/src/lib.rs:557-571 | a change of setting that names the managed server has launched it with the new one |
| `DaemonSafety.WaitKeeps` | codex-rs/app-server-daemon/src/lib.rs:448-463 | polling changes nothing the daemon is responsible for |
| `DaemonSafety.TerminateKeeps` | codex-rs/app-server-daemon/src/backend/pid.rs:235-270 | stopping signals only the recorded process while it is still the daemon's own; success leaves none running |
| `DaemonSafety.LaunchKeeps` | codex-rs/app-server-daemon/src/backend/pid.rs:117-228 | starting launches with the given setting, and nothing when the recorded process is alive |
| `DaemonResults.StartExact` | codex-rs/app-server-daemon/src/lib.rs:294-330 | start returns exactly what the settings, the socket, the pid file, the binary, the launch and the polls call for |
| `DaemonResults.StartedRuns` | codex-rs/app-server-daemon/src/lib.rs:319-329 | and started means running with the saved setting, unless it died while being waited for |
| `DaemonResults.FirstStartIsOff` | codex-rs/app-server-daemon/src/settings.rs:15-19 | without a settings file remote control is off |
| `DaemonResults.RestartExact` | codex-rs/app-server-daemon/src/lib.rs:332-357 | the exact result of restart |
| `DaemonResults.RestartedRuns` | codex-rs/app-server-daemon/src/lib.rs:347-356 | restarted means running with the saved setting, likewise |
| `DaemonResults.StopExact` | codex-rs/app-server-daemon/src/lib.rs:405-433 | the exact result of stop |
| `DaemonResults.StoppedIsGone` | codex-rs/app-server-daemon/src/lib.rs:407-417 | stopped means the recorded process is gone |
| `DaemonResults.VersionExact` | codex-rs/app-server-daemon/src/lib.rs:435-446 | the exact result of version |
| `DaemonResults.SetExact` | codex-rs/app-server-daemon/src/lib.rs:525-572 | the exact result of setting remote control |
| `DaemonResults.SetRuns` | codex-rs/app-server-daemon/src/lib.rs:557-571 | a new setting reported with the server means it runs with that setting, likewise |
| `DaemonResults.BootstrapExact` | codex-rs/app-server-daemon/src/lib.rs:574-614 | the exact result of bootstrapping |
| `DaemonResults.BootstrappedRuns` | codex-rs/app-server-daemon/src/lib.rs:587-613 | bootstrapped means the server running with the setting and the updater beside it, if nothing died since |
| `DaemonResults.TryRestartExact` | codex-rs/app-server-daemon/src/lib.rs:360-403 | the exact result of the updater's restart |
| `DaemonResults.DecideIff` | codex-rs/app-server-daemon/src/lib.rs:791-805 | which versions cause a restart |
| `DaemonResults.EnsureExact` | codex-rs/app-server-daemon/src/lib.rs:491-508 | ensuring remote control sets and starts if the updater is seen alive, and bootstraps otherwise |
| `DaemonResults.LockedOut` | codex-rs/app-server-daemon/src/lib.rs:366-369 | without the operation lock nothing happens |
| `DaemonResults.ReadyIff` | codex-rs/app-server-daemon/src/lib.rs:448-463 | waiting succeeds if and only if some poll answers before one is past the deadline |
| `DaemonResults.TerminateKills` | codex-rs/app-server-daemon/src/backend/pid.rs:235-270 | stopping signals exactly the recorded process, and it is gone |
| `DaemonResults.TerminateFails` | codex-rs/app-server-daemon/src/backend/pid.rs:235-270 | what a stop that fails has done |
| `DaemonResults.LaunchAdds` | codex-rs/app-server-daemon/src/backend/pid.rs:117-228 | starting adds exactly the one process it records |
| `DaemonResults.LaunchFails` | codex-rs/app-server-daemon/src/backend/pid.rs:155-226 | what a start that fails has done |
| `DaemonFailures.SetBreaksIff` | codex-rs/app-server-daemon/src/lib.rs:554-561 | setting remote control makes a consistent host inconsistent if and only if the server runs with the other setting, the new one reached the file, and the server outlives the step that then failed |
| `DaemonFailures.SetNeedsBinary` | codex-rs/app-server-daemon/src/lib.rs:555-558 | when nothing else goes wrong: consistent afterwards if and only if no server runs with the other setting or the managed binary is there |
| `DaemonFailures.BootstrapBreaksIff` | codex-rs/app-server-daemon/src/lib.rs:587-594 | the exact condition for bootstrapping, likewise |
| `DaemonFailures.EnsureBreaksIff` | codex-rs/app-server-daemon/src/lib.rs:491-508 | and for ensuring remote control: the setting's condition if the updater is seen alive, else the bootstrap's; the final start never breaks anything |
| `DaemonFailures.ExecuteBreaksIff` | codex-rs/app-server-daemon/src/lib.rs:276-292 | for every operation, the exact condition under which it makes a consistent host inconsistent; never for the others |
| `DaemonFailures.AlwaysConsistentIff` | codex-rs/app-server-daemon/src/lib.rs:276-292 | over every run, the host is consistent throughout if and only if no call meets its condition |
| `DaemonFailures.SetCanBreak` | codex-rs/app-server-daemon/src/lib.rs:554-561 | a concrete host on which enabling fails, the server keeps the old setting, and a later start reports success |
| `DaemonObject.DaemonProcess.StartServer` | codex-rs/app-server-daemon/src/lib.rs:294-330 | on the host itself: keeps the invariant and consistency, never writes the settings, and never refuses; the result is exact |
| `DaemonObject.DaemonProcess.RestartServer` | codex-rs/app-server-daemon/src/lib.rs:332-357 | on the host itself: keeps the invariant; success leaves it consistent, a refusal changes nothing; the result is exact |
| `DaemonObject.DaemonProcess.StopServer` | codex-rs/app-server-daemon/src/lib.rs:405-433 | on the host itself: keeps the invariant; success leaves no managed server, a refusal changes nothing; the result is exact |
| `DaemonObject.DaemonProcess.ReportVersion` | codex-rs/app-server-daemon/src/lib.rs:435-446 | on the host itself: settings, signals and server are untouched; the result is exact |
| `DaemonObject.DaemonProcess.BootstrapServer` | codex-rs/app-server-daemon/src/lib.rs:574-614 | on the host itself: success saves the setting and leaves it consistent; a consistent host becomes inconsistent exactly under the stated condition; the result is exact |
| `DaemonObject.DaemonProcess.SetMode` | codex-rs/app-server-daemon/src/lib.rs:525-572 | on the host itself: success leaves the setting saved; a consistent host becomes inconsistent exactly under the stated condition; the result is exact |
| `DaemonObject.DaemonProcess.RestartIfRunning` | codex-rs/app-server-daemon/src/lib.rs:360-403 | on the host itself: never writes the settings; a restart, or nothing running, leaves it consistent; the result is exact |
| `DaemonObject.DaemonProcess.EnsureStarted` | codex-rs/app-server-daemon/src/lib.rs:491-508 | on the host itself: success leaves remote control enabled; a consistent host becomes inconsistent exactly under the stated condition |
| `DaemonObject.DaemonProcess.ExecuteCall` | codex-rs/app-server-daemon/src/lib.rs:276-292 | any call keeps the invariant and breaks consistency exactly under its condition |
| `DaemonObject.ExecuteAll` | codex-rs/app-server-daemon/src/lib.rs:276-292 | the object through any serial run on a host with no pid files: it signals only its own processes, and unless a call that writes the settings failed, a running managed server has the saved setting |
| `DaemonObject.DaemonProcess.Wait` | codex-rs/app-server-daemon/src/lib.rs:448-463 | the polling loop succeeds if and only if some poll answers before one is past the deadline, touching nothing |
| `DaemonObject.DaemonProcess.IsRunning` | codex-rs/app-server-daemon/src/backend/pid.rs:98-114 | keeps the invariant, touches nothing but a stale record, and says yes exactly when the managed server is alive |
| `DaemonObject.DaemonProcess.StopBackend` | codex-rs/app-server-daemon/src/backend/pid.rs:235-270 | keeps the invariant: only the daemon's own process is signalled, and success leaves no managed server |
| `DaemonObject.DaemonProcess.StartBackend` | codex-rs/app-server-daemon/src/backend/pid.rs:117-228 | keeps the invariant: with no server alive, success leaves one with the given setting |
| `RemoteControl.OkMeansSettledOrTimedOut` | codex-rs/app-server-daemon/src/remote_control_client.rs:42-74 | for every stream and clock an Ok result is timed out if and only if its status is connecting, and otherwise is the first settled status from the enable response onward |
| `RemoteControl.EarlierMessagesIgnored` | codex-rs/app-server-daemon/src/remote_control_client.rs:100-136 | nothing received before the enable response influences the result |
| `RemoteControl.SettledIsFirst` | codex-rs/app-server-daemon/src/remote_control_client.rs:147-167 | the status returned is the first in the stream that is not connecting |
| `RemoteControl.ReadEnableResponse` | codex-rs/app-server-daemon/src/remote_control_client.rs:100-136 | Ok if and only if the first read that ends the loop is an enable response that parses |
| `RemoteControl.WaitForStatus` | codex-rs/app-server-daemon/src/remote_control_client.rs:138-170 | the first settled status notified in time, else the read error, else the latest status marked timed out |
| `RemoteControl.EnableExact` | codex-rs/app-server-daemon/src/remote_control_client.rs:42-170 | the whole result from the messages: an error unless a response that parses comes first, then the first settled status heard in time, else the read error, else the last status timed out |
| `RemoteControl.EnableRemoteControl` | codex-rs/app-server-daemon/src/remote_control_client.rs:68-73 | both loops in sequence compute the specified result |
| `LintArgs.IdempotentIff` | tools/argument-comment-lint/wrapper_common.py:107-122 | normalising is idempotent if and only if the manifest path put in is not `--` |
| `LintArgs.NormalizeIdempotent` | tools/argument-comment-lint/wrapper_common.py:55-122 | parsing and rebuilding a built argument list returns the same list |
| `LintArgs.SeparatorPathGrows` | tools/argument-comment-lint/wrapper_common.py:111-112 | a manifest path `--` is taken for the separator, so normalising again makes the list longer |
| `LintArgs.SeparatorPathGrowsForever` | tools/argument-comment-lint/wrapper_common.py:111-112 | and so does every further normalisation |
| `LintArgs.ArgumentsSurvive` | tools/argument-comment-lint/wrapper_common.py:107-122 | the user's arguments before and after the separator survive in order around the defaults |
| `LintDefaults.NormalizeExpands` | tools/argument-comment-lint/wrapper_common.py:55-122 | normalising adds exactly the defaults that the spelling of the user's arguments leaves open |
| `LintDefaults.FlagsFromTokens` | tools/argument-comment-lint/wrapper_common.py:75-102 | which arguments give a manifest, a package, a library, `--no-deps` or `--fix`, values of options apart |
| `LintDefaults.SplitsAtSeparator` | tools/argument-comment-lint/wrapper_common.py:61-71 | the arguments split at the first separator |
| `LintDefaults.SelectsIff` | tools/argument-comment-lint/wrapper_common.py:22-33 | which cargo arguments select targets |
| `LintArgs.PrefixFlags` | tools/argument-comment-lint/wrapper_common.py:85-102 | parsing the defaults back sets exactly their flags and leaves those of the rest |
| `LintArgs.ParseWrapperArgs` | tools/argument-comment-lint/wrapper_common.py:55-104 | the loop with its pending value and separator flag computes the declarative parse |
| `LintArgs.BuildFinalArgs` | tools/argument-comment-lint/wrapper_common.py:107-122 | the list is defaults, lint arguments, then separator and cargo arguments if any |

## Left out

- WebSocket, Unix socket, TLS and HTTP plumbing: each read, write or probe is a step that may fail.
- The command, notify and shutdown branches of the in-process worker: they do not touch the event path.
- Retrying the connection, connection limits, authentication headers and the user-agent version string.
- Decoding of notifications and requests from JSON: the decoded form, or its absence, is part of the input.
- The thread-scheduling of request waiters: a reply is an entry in the waiter's log, whether or not it is still listening.
- Floats are JSON numbers given by their printed text; equal texts are equal numbers.
- Payload the reducer only copies into events is one string, and the accepted-line event carries the scanner's totals as given.
- Skill, app, hook, plugin and compaction events of the reducer: they pass through without joining anything.
- SHA-1 hashing and git lookups: fingerprints are the (path, line) pairs before hashing.
- Unicode's alphanumeric test is a parameter; white space is the Unicode White_Space list.
- Git's C-style quoting of unusual path names: a path is printed as it is, with a trailing tab when it holds a space.
- The daemon's operation lock is a flag of the call, since calls are serial; two daemons racing on one pid file are not modelled.
- A pid and its start time identify a process: the one-second resolution of start times and the moment between the identity check and the signal are not modelled.
- The grace period before a forced kill, log tails and version texts in the daemon's outputs.
- Re-executing the updater is a step that may fail; the new image is not modelled.
- The short-lived pid-file reservation of a backend that is still being launched: it counts as running only once recorded.
- External edits of the daemon's settings file between calls.
- SQL-backed stores and configuration layers: their traversal and merging live in crates outside these components.
- Agent identity: signatures and sealed boxes are the work of cryptographic libraries.
- Packaging, installation and release scripts: they copy files and run other programs.
