# wapp-planner: a verified model

wapp-planner receives WhatsApp messages, groups each client's messages into requests, asks the owner
what kind of document a request wants, generates that document, and revises it until the owner
approves. This project models that pipeline in Dafny and proves what it promises over every run.

Two protocols carry it, and each is given three times: as live objects with `modifies` clauses in the
shape of the Python classes, as pure steps on values that those objects are proved to take, and as
theorems about all runs of the steps.

- **Ingestion and aggregation.** `Aggregator` holds mutable buckets; `AggregatorSpec` gives its steps;
  `Segmentation` is the reference, a greedy cut of a timestamped stream. `Parser`, `IngestionSpec` and
  `Ingestion` put flattening and claims in front of it and the orchestrator behind it.
- **Request lifecycle.** `Orchestrator` writes to a mutable repository, object store and outbox;
  `Lifecycle` gives each entry point as a list of atomic effects and a result, for every outcome of the
  foreign calls. Safety is stated after every single effect, so it covers a call that fails midway.

Around them: the state table (`StateMachine`), storage keys (`StorageKeys`), owner links (`Tokens`,
`Base64Url`), the transcript builder (`Transcript`), and generation with its retries (`Generator`,
`JsonIO`).

The theorems compose. `IngestionRuns.ServiceRunIsLifecycleRun` shows that every run of the whole
service, whatever raised, is a run the lifecycle theorems speak about, and
`IngestionRefinement.EndToEnd` carries the segmentation theorem through deduplication to the hand-offs.

Conventions: time is an integer; `ids(n)` is the n-th id the factory returns; an oracle is the outcome
of a foreign call, quantified over. Positive window lengths are assumed only where a theorem needs
them. `Monotone` and `Clocked` say the clock never runs backwards.

What each elementary step means is stated apart from the functions that take it, in the source's own
quantities: windows in `AggregatorRuns` and `Segmentation`, fields of webhook messages in
`ParserFields`, of built messages in `IngestionSpec.BuildMeans`, what the model is asked in
`LifecycleQuestions`, what a segment says in `TranscriptContents`.

## Where the code and its documents differ

The code is followed; what it does is proved.

- Section 6 of `docs/REQUIREMENTS.md` says any unrecoverable error leads to FAILED. Only a
  `GenerationError` does. A missing prompt, a rendering error or a storage error leaves the request in
  GENERATING, and a classifier error leaves it in CLASSIFYING; such a request accepts no click and stays
  as it is for good (`LifecycleRuns.GenerateEffect`, `LifecycleRuns.IngestEffect`,
  `LifecycleRuns.NotAwaitingIsFrozen`).
- FR-ING-07 keys stored media by request and message id. The service passes the constant `inbound`, so
  the key is `inbound/<message id>`; `StorageKeys.UnsafeIdCollides` shows why the request ids must then
  differ from `inbound`, which hex ids do.
- A confirmation generates only if the last correction named a kind of document. Issued links always do
  (`Tokens.LinksAreIssued`), and without that `LifecycleReplay.CorrectionDecidesPrompt` says exactly when
  it fails.
- A flush pops all due buckets before it hands over the first, so an exception loses those after it;
  `IngestionRuns.FlushDropsNothingIff` is the exact condition under which nothing is lost.
- A click on an unknown request is not recorded, so it can be replayed later with effect
  (`LifecycleReplay.EarlyClickIsNotSpent`); a recorded but illegal click is spent.
  `LifecycleReplay.ReplaysIrrelevantIff` is the exact condition under which replays change nothing.
- Delivery is at least once, but the first delivery of an id does not always decide: a body that raises
  leaves its later messages unclaimed, and its redelivery claims them
  (`IngestionDuplicates.RedeliveryAfterFailure`). `IngestionDuplicates.FirstDeliveriesDecideIff` says
  exactly when first deliveries alone decide, and `IngestionDuplicates.DuplicateDeliveriesIrrelevant`
  what holds in every run: what is already claimed changes nothing.

## Model

| member | source | states |
|---|---|---|
| Segmentation.SegmentsAppend | src/wapp_planner/aggregation/aggregator.py:67-88 | one more arrival extends the last segment exactly when it is less than the inactivity window after its last arrival and less than the maximum duration after its first, and otherwise opens a new one |
| Segmentation.SegmentsGreedy | src/wapp_planner/aggregation/aggregator.py:61-65 | the segmentation loses and reorders nothing; inside a segment every gap is less than the inactivity window and every span less than the maximum duration, and between segments one of the two has run out |
| Segmentation.GreedyUnique | src/wapp_planner/aggregation/aggregator.py:61-88 | it is the only segmentation of its stream with those properties |
| AggregatorTheorems.OnlineRefinesGreedy | src/wapp_planner/aggregation/aggregator.py:61-93 | for every interleaving of adds and flushes under a non-decreasing clock, a client's emitted requests followed by its open bucket are the greedy segmentation of its arrivals: messages, orders, timestamps and request ids |
| AggregatorTheorems.FlushTimingIrrelevant | src/wapp_planner/aggregation/aggregator.py:90-93 | two runs with the same adds and any flushes agree on every client's grouping and on the number of ids issued |
| AggregatorRuns.FlushAllCompletes | src/wapp_planner/aggregation/aggregator.py:95-97 | a final flush of everything leaves nothing open, and the client's emissions are then exactly the greedy segmentation |
| AggregatorRuns.BucketsWellFormed | src/wapp_planner/aggregation/aggregator.py:61-97 | whatever the clock does, each bucket ever open or emitted is non-empty, has orders 0..n-1 and spans less than the maximum duration |
| AggregatorRuns.RequestArrivals | src/wapp_planner/aggregation/aggregator.py:61-93 | whatever the clock does, a client's requests (emitted, then open) cut its arrivals into consecutive segments, losing and reordering nothing; each carries exactly its segment's messages renumbered and its first and last time, and in it every arrival is less than the inactivity window after the one before and less than the maximum duration after the first |
| AggregatorRuns.RequestsApart | src/wapp_planner/aggregation/aggregator.py:61-88 | under a non-decreasing clock, when a client's next request starts, the one before has had no arrival for the inactivity window or has reached the maximum duration |
| AggregatorRuns.AddClosesExpired | src/wapp_planner/aggregation/aggregator.py:67-88 | an add closes its client's bucket exactly when one of the two windows has run out, otherwise extends it, and leaves other clients' buckets alone |
| AggregatorRuns.DueMeansExpired | src/wapp_planner/aggregation/aggregator.py:92 | the clients due are exactly those whose bucket has had no arrival for the inactivity window or has reached the maximum duration |
| AggregatorRuns.FlushEmitsExpired | src/wapp_planner/aggregation/aggregator.py:90-93 | a flush emits exactly those buckets and leaves the others as they were |
| AggregatorRuns.LoadKeepsLast | src/wapp_planner/aggregation/aggregator.py:103-105 | loading any list of buckets keeps the last one of each client |
| AggregatorRuns.LoadOnly | src/wapp_planner/aggregation/aggregator.py:103-105 | and no client that is not in the list |
| AggregatorRuns.FlushOldestFirst | src/wapp_planner/aggregation/aggregator.py:90-93 | under a non-decreasing clock a flush emits in order of the buckets' start, since dictionary order is creation order |
| AggregatorRuns.ClientsDoNotInterfere | src/wapp_planner/aggregation/aggregator.py:67-97 | up to request ids, what a client is grouped into in any run equals a run with that client's adds and the same flushes alone |
| AggregatorRuns.LoadExported | src/wapp_planner/aggregation/aggregator.py:99-105 | loading an exported snapshot restores the state, dictionary order included |
| AggregatorRuns.RestartTransparent | src/wapp_planner/aggregation/aggregator.py:99-109 | a restart anywhere in a run changes neither the emissions before or after nor the final state |
| Aggregator.Aggregator.Add | src/wapp_planner/aggregation/aggregator.py:67-88 | the live object takes the specified step and returns the bucket it displaced, if any |
| Aggregator.Aggregator.Emit | src/wapp_planner/aggregation/aggregator.py:107-109 | pops exactly one client's bucket and returns its value |
| Aggregator.Aggregator.DueClients | src/wapp_planner/aggregation/aggregator.py:92 | lists exactly the clients whose bucket is no longer active, in dictionary order |
| Aggregator.Aggregator.FlushDue | src/wapp_planner/aggregation/aggregator.py:90-93 | removes and returns, in dictionary order, exactly the buckets whose inactivity window or maximum duration has run out |
| Aggregator.Aggregator.FlushAll | src/wapp_planner/aggregation/aggregator.py:95-97 | removes and returns every bucket, in dictionary order |
| Aggregator.Aggregator.ExportState | src/wapp_planner/aggregation/aggregator.py:99-101 | returns the live buckets themselves, in dictionary order |
| Aggregator.Aggregator.LoadState | src/wapp_planner/aggregation/aggregator.py:103-105 | the state becomes what the listed buckets spell out, later ones replacing earlier ones of the same client |
| Aggregator.Restart | src/wapp_planner/aggregation/aggregator.py:99-105 | a new object on the same id source, loaded with what the old one exports, is in the old one's state, so `RestartTransparent` speaks of it |
| StateMachine.TerminalIffNoExit | src/wapp_planner/workflow/state_machine.py:20-53 | the terminal states are exactly those no trigger leaves |
| StateMachine.OwnerActsWhenAwaiting | src/wapp_planner/workflow/triggers.py:10-21 | some decision's trigger is legal exactly in the two awaiting states |
| StateMachine.TriggerHasOneSource | src/wapp_planner/workflow/state_machine.py:26-43 | every trigger but FAIL is for one state only |
| StateMachine.FailureFromAnywhere | src/wapp_planner/workflow/state_machine.py:44-53 | every state but the terminal ones can fail, into FAILED |
| StorageKeys.ArtifactKeyInjective | src/wapp_planner/orchestrator/orchestrator.py:188-223 | a document's key determines its request, revision and format |
| StorageKeys.InboundKeyApart | src/wapp_planner/ingestion/media_downloader.py:66-67 | a received file's key is never a document's |
| StorageKeys.InboundKeyInjective | src/wapp_planner/ingestion/media_downloader.py:66-67 | a received file's key determines its message |
| StorageKeys.HexKeySafe | src/wapp_planner/bootstrap.py:62-63 | ids made of hex digits satisfy what the keys need of them |
| StorageKeys.DecimalMeans | src/wapp_planner/orchestrator/orchestrator.py:193 | revision numbers in keys are decimal numerals of their number, without idle zeros |
| StorageKeys.KeysSpelled | src/wapp_planner/orchestrator/orchestrator.py:218 | a document's key is `<request>/r<revision>/<file name>`, a received file's `inbound/<message>` |
| StorageKeys.FilesSpelled | src/wapp_planner/orchestrator/orchestrator.py:188-192 | file names are `<intent>-<request>-r<revision>` and the format's extension |
| StorageKeys.UnsafeIdCollides | src/wapp_planner/ingestion/service.py:100-103 | with `inbound` as a request id, a document would overwrite a received file |
| LifecycleSafety.LegalKeeps | src/wapp_planner/orchestrator/orchestrator.py:70-223 | every legal atomic effect keeps the safety invariant: revisions 1..n stored and referring to stored files of the request's intent, no artifacts beyond the current revision, faithful deliveries |
| LifecycleSafety.IngestLegal | src/wapp_planner/orchestrator/orchestrator.py:70-114 | every effect of `ingest`, however it ends, is legal where it happens |
| LifecycleSafety.ActLegal | src/wapp_planner/orchestrator/orchestrator.py:117-223 | every effect of an owner action, however it ends, is legal where it happens |
| LifecycleSafety.InvariantAtEveryWrite | src/wapp_planner/orchestrator/orchestrator.py:70-223 | the invariant holds after every single write of every run |
| LifecycleSafety.RevisionsNumberedAtEveryWrite | src/wapp_planner/orchestrator/orchestrator.py:166-211 | at every write, stored revisions are numbered 1..n with n the current revision, or one more only in GENERATING |
| LifecycleSafety.EveryEffectLegal | src/wapp_planner/orchestrator/orchestrator.py:117-223 | each save follows the table, a revision is added and the model asked only in GENERATING, a revision request is given the latest content, puts use new keys |
| LifecycleSafety.DeliveriesFaithful | src/wapp_planner/orchestrator/orchestrator.py:188-211 | each delivery is of an existing revision and carries byte for byte what is stored under its keys |
| LifecycleSafety.StorageWriteOnce | src/wapp_planner/orchestrator/orchestrator.py:213-223 | no two puts of a run share a key, and every key keeps its bytes to the end |
| LifecycleRuns.GenerateEffect | src/wapp_planner/orchestrator/orchestrator.py:166-211 | exactly where generation leaves a request: AWAITING_APPROVAL with one more revision, FAILED when the model failed, GENERATING when anything else raised before delivery |
| LifecycleRuns.ActEffect | src/wapp_planner/orchestrator/orchestrator.py:117-148 | an applied decision changes only its own request, to the stated end; any other click writes at most its own record |
| LifecycleRuns.IngestEffect | src/wapp_planner/orchestrator/orchestrator.py:70-114 | a batch ends CLASSIFYING, DISCARDED or AWAITING_CLASSIFICATION as the classifier decides, with its own messages stored and nothing else touched |
| LifecycleRuns.DecisionGrammar | src/wapp_planner/orchestrator/orchestrator.py:117-148 | over every run, applied decisions form a prefix of CORRECT* (REJECT or CONFIRM REVISE* APPROVE), COMPLETED holds exactly after an APPROVE, and the revision count is the number of generations asked for, less one only in GENERATING or FAILED |
| LifecycleRuns.NotAwaitingIsFrozen | src/wapp_planner/workflow/state_machine.py:26-53 | a request that is terminal or stalled keeps its record, messages, revisions and sent messages through every later run |
| LifecycleOutcomes.ActOutcome | src/wapp_planner/orchestrator/orchestrator.py:134-148 | a click adds a revision exactly when it is applied and its generation completes, delivers that revision exactly when sending works besides, prompts again after a correction, and otherwise adds and sends nothing |
| LifecycleOutcomes.IngestOutcome | src/wapp_planner/orchestrator/orchestrator.py:93-114 | the stored request carries its client, name and time, the transcript and the classifier's intent and confidence, is flagged as low exactly below the threshold, and the owner is prompted exactly when it is actionable or prompts for nothing are wanted |
| LifecycleOutcomes.RevisionsDeliveredOnce | src/wapp_planner/orchestrator/orchestrator.py:166-211 | in every run a request's revisions are delivered in ascending order, each at most once, and exactly 1..n when sending works |
| LifecycleQuestions.ActAsks | src/wapp_planner/orchestrator/orchestrator.py:134-183 | a click asks the model exactly when it is applied, confirms or revises, and the intent names a document; then once, for the next revision: afresh on CONFIRM, with the owner's feedback and the last revision's content on REVISE |
| LifecycleQuestions.OnlyActsAsk | src/wapp_planner/orchestrator/orchestrator.py:70-114 | no other call asks the model |
| LifecycleQuestions.RevisionsAnswerQuestions | src/wapp_planner/orchestrator/orchestrator.py:175-207 | a revision that a click adds has the number, intent and feedback that the click asked with, and the generated body |
| LifecycleQuestions.ActStores | src/wapp_planner/orchestrator/orchestrator.py:188-223 | a click stores exactly the rendered files of the next revision, the PDF first and the DOCX only after it |
| LifecycleQuestions.ClickRecorded | src/wapp_planner/orchestrator/orchestrator.py:123-132 | the first click with an id on a known request is recorded as made before anything else, and no other |
| LifecycleQuestions.ActReturns | src/wapp_planner/orchestrator/orchestrator.py:117-148 | a click raises exactly the first exception its steps meet, and otherwise returns the request as then stored, unchanged for a replay |
| LifecycleQuestions.IngestReturns | src/wapp_planner/orchestrator/orchestrator.py:98-114 | ingesting raises exactly when the classifier does or a wanted prompt cannot be sent, and otherwise returns the request as stored |
| LifecycleReplay.ReplaysIrrelevantIff | src/wapp_planner/orchestrator/orchestrator.py:119-132 | for every run, deleting every repeated action id leaves all effects, and the final world, the same exactly when each deleted click, where it occurs, has a recorded id (be it by an illegal click) or an unknown request |
| LifecycleReplay.ReplayInsensitive | src/wapp_planner/orchestrator/orchestrator.py:119-132 | so with existing requests it always does |
| LifecycleReplay.EarlyClickIsNotSpent | src/wapp_planner/orchestrator/orchestrator.py:119-121 | the proviso is needed: a click before its request exists can be replayed with effect |
| LifecycleReplay.IntentsAtEveryWrite | src/wapp_planner/orchestrator/orchestrator.py:106-140 | given corrections from issued links, every write leaves every request from AWAITING_CLASSIFICATION on with a document intent |
| LifecycleReplay.EventIntents | src/wapp_planner/nlp/prompts.py:75-78 | then no call raises for want of a prompt or for a prompt without an intent |
| LifecycleReplay.CorrectionDecidesPrompt | src/wapp_planner/orchestrator/orchestrator.py:136-140 | a confirmation after a correction lacks a prompt exactly when the correction named no kind of document |
| Orchestrator.InMemoryRequestRepository.AddRevision | src/wapp_planner/persistence/repository.py:76-77 | appends to the request's revisions and touches nothing else |
| Orchestrator.InMemoryRequestRepository.LatestRevision | src/wapp_planner/persistence/repository.py:82-84 | the last revision added, if any |
| Orchestrator.InMemoryRequestRepository.RecordInteraction | src/wapp_planner/persistence/repository.py:86-90 | records and says so exactly when the id is new |
| Orchestrator.Orchestrator.Transition | src/wapp_planner/orchestrator/orchestrator.py:151-156 | saves the moved request along an edge of the table, and otherwise raises and writes nothing |
| Orchestrator.Orchestrator.Ingest | src/wapp_planner/orchestrator/orchestrator.py:70-114 | the live objects undergo exactly the planned effects in order, and the result is the planned one |
| Orchestrator.Orchestrator.ApplyOwnerAction | src/wapp_planner/orchestrator/orchestrator.py:117-148 | the same for an owner action, its record written before the transition is checked |
| Orchestrator.Orchestrator.GenerateRenderDeliver | src/wapp_planner/orchestrator/orchestrator.py:166-211 | the same for generation, from the model call to the delivery |
| Orchestrator.Orchestrator.StoreAndDeliver | src/wapp_planner/orchestrator/orchestrator.py:193-223 | the same for storing both files, adding the revision and moving on |
| Parser.IterValues | src/wapp_planner/ingestion/parser.py:92-99 | the dictionaries among all changes of all entries, in order, or an exception for a wrong shape |
| Parser.ParseWebhook | src/wapp_planner/ingestion/parser.py:102-123 | succeeds exactly when no shape is wrong, and then lists the parse of each supported raw message, with its own value's contacts, and the type of each other, both in order |
| Parser.FlatteningConserves | src/wapp_planner/ingestion/parser.py:102-123 | parsed and skipped together are as many as the raw messages, each in exactly one of them, and the result is determined by the payload |
| ParserFields.LookupMeans | src/wapp_planner/ingestion/parser.py:58-89 | with distinct names a lookup finds the value under the name, or the default |
| ParserFields.KindMeans | src/wapp_planner/ingestion/parser.py:58-64 | the kind follows `type`, and is voice exactly when `type` is audio and `audio.voice` is true |
| ParserFields.SupportedMeans | src/wapp_planner/ingestion/parser.py:113-119 | a raw message is kept exactly when it is an object with an id and an accepted type |
| ParserFields.BuildSays | src/wapp_planner/ingestion/parser.py:67-89 | each field of a parsed message is the entry of its own name: id, sender, timestamp, a text's body, and a medium's caption, id, MIME type and file name |
| ParserFields.BuildsExactlyWhen | src/wapp_planner/ingestion/parser.py:67-89 | a message is built exactly when its sender's name is a string or null and its content part is an object or falsy |
| ParserFields.ContactsMean | src/wapp_planner/ingestion/parser.py:108-112 | a sender is named by the last contact with its id |
| ParserFields.FlattenedSays | src/wapp_planner/ingestion/parser.py:102-123 | each message of a parsed body says what the raw message in its place says, named by the contacts of its own value; each skipped one has no id or no accepted type, and is reported by its type |
| ParserFields.BodyBack | src/wapp_planner/ingestion/parser.py:92-99 | flattening a body of entries of changes of values gives back exactly its values, in order |
| ParserFields.MessagesBack | src/wapp_planner/ingestion/parser.py:107-113 | the raw messages of a value are those listed in it, in order |
| IngestionConservation.AddHeld | src/wapp_planner/aggregation/aggregator.py:67-88 | an add conserves messages and request ids: what is held plus what is displaced is what was held plus the new |
| IngestionConservation.FlushHeld | src/wapp_planner/aggregation/aggregator.py:90-93 | a flush conserves messages and request ids |
| IngestionRuns.ExactlyOnce | src/wapp_planner/ingestion/service.py:66-94 | after any interleaving of deliveries, ticks and clicks, whatever raised, a claimed message id is in exactly one place and an unclaimed one in none; the repository stores exactly the batches handed over, each with its own messages |
| IngestionRuns.InOnePlace | src/wapp_planner/ingestion/service.py:66-94 | a claimed id that no exception lost is, once, in exactly one open bucket or the stored messages of exactly one request; every other id is in none of them |
| IngestionRuns.RequestIdsUnique | src/wapp_planner/ingestion/service.py:66-94 | no two batches or buckets share a request id |
| IngestionRuns.ServiceRunIsLifecycleRun | src/wapp_planner/ingestion/service.py:66-139 | every service run is an admissible lifecycle run: fresh key-safe request ids, each message's media stored at most once |
| IngestionRuns.FlushDropsNothingIff | src/wapp_planner/ingestion/service.py:89-94 | a flush loses no batch exactly when every due batch but the last is handed over without an exception and the last one's media loads |
| IngestionDuplicates.DuplicatesIgnored | src/wapp_planner/ingestion/service.py:75-87 | a body without its duplicates has the same effect, count and exception |
| IngestionDuplicates.DuplicateDeliveriesIrrelevant | src/wapp_planner/ingestion/service.py:75-87 | whatever raises, a run equals the run in which each body is stripped of what is already claimed when it arrives: same state in every part, same count, same exceptions |
| IngestionDuplicates.FirstDeliveriesDecideIff | src/wapp_planner/ingestion/service.py:75-87 | a run equals the run of first deliveries alone exactly when no id that an exception skipped is claimed by a later delivery |
| IngestionDuplicates.RedeliveryAfterFailure | src/wapp_planner/ingestion/service.py:75-87 | an input on which they differ: a body whose first message cannot be built, delivered twice |
| IngestionDuplicates.UnraisedFirstDeliveries | src/wapp_planner/ingestion/service.py:75-87 | when nothing raised they agree |
| IngestionDuplicates.AcceptedCountsDistinct | src/wapp_planner/ingestion/service.py:75-87 | over any run the accepted counts (of a call that raises, what it accepted before) sum to the ids newly claimed, and when nothing raised the claims are what was delivered |
| IngestionDuplicates.AcceptedFromStart | src/wapp_planner/ingestion/service.py:75-87 | from the start they sum to the number of distinct ids delivered exactly when every delivered id was claimed, as when nothing raised, and otherwise to fewer |
| IngestionRefinement.EndToEnd | src/wapp_planner/ingestion/service.py:66-94 | in every run, whatever raises, under a non-decreasing clock: a client's batches (handed over or dropped, in the order they were closed) followed by its open bucket are the greedy segmentation of its messages that were reached and built, at their first arrival times |
| IngestionRefinement.EndToEndUnraised | src/wapp_planner/ingestion/service.py:66-94 | when nothing raised, those batches are the hand-offs, those messages are all first deliveries, and nothing is lost |
| IngestionMedia.MediaAlwaysReads | src/wapp_planner/ingestion/service.py:96-127 | in every reachable state, each message, open, handed over or dropped, says field by field what one delivered message says, refers to media exactly when that one's was downloaded, and finds those bytes under its own key |
| IngestionMedia.NeedsMediaExactlyWhen | src/wapp_planner/ingestion/service.py:119-127 | a batch is read from storage exactly when some message's media was downloaded |
| IngestionSpec.BuildMeans | src/wapp_planner/ingestion/service.py:96-117 | a message is built exactly when its five copied fields are strings or null; then each is the same-named field of the parsed message, and it refers to its key exactly when it is no text, has a media id and the download succeeded |
| IngestionHandoffs.HandoffsNamed | src/wapp_planner/ingestion/service.py:129-139 | in every run each batch is handed over at the time of the call that closed it, under the name its client was last resolved to before, flagged exactly when that resolution did not know it |
| Ingestion.InMemoryIdempotencyStore.Claim | src/wapp_planner/ingestion/idempotency.py:35-39 | true exactly for the first claim of a key, which is then seen |
| Ingestion.InMemoryIdempotencyStore.Seen | src/wapp_planner/ingestion/idempotency.py:41-42 | whether a key was claimed |
| Ingestion.IngestionService.Receive | src/wapp_planner/ingestion/service.py:66-87 | rejects a bad signature, a bad payload and exactly the ill-shaped bodies without touching the state, and otherwise takes the specified step on the parse of the body |
| Ingestion.IngestionService.ReceiveMessage | src/wapp_planner/ingestion/service.py:76-86 | claims, remembers the client, stores media, builds and adds one message, as specified |
| Ingestion.IngestionService.BuildMessage | src/wapp_planner/ingestion/service.py:96-117 | stores what was downloaded and returns the parsed message's fields, each under its own name, with a reference exactly when the download succeeded |
| Ingestion.IngestionService.Process | src/wapp_planner/ingestion/service.py:119-139 | hands a batch over with its client's name and flags, or raises when its media cannot be read |
| Ingestion.IngestionService.FlushDue | src/wapp_planner/ingestion/service.py:89-94 | hands over every due batch in order until one raises; the count is the number due |
| JsonIO.ExtractFailsIff | src/wapp_planner/util/jsonio.py:10-16 | extraction fails exactly when no `{` comes before a `}` |
| JsonIO.ExtractUnwraps | src/wapp_planner/util/jsonio.py:10-16 | it undoes wrapping by any prose without `{` before and without `}` after, whatever the object contains |
| JsonIO.ExtractIdempotent | src/wapp_planner/util/jsonio.py:10-16 | what was extracted is extracted from itself |
| Generator.Generator.Generate | src/wapp_planner/documents/generator.py:93-128 | returns the parse of the first reply that parses, fails exactly when none of the allowed attempts does, and pauses exactly the stated sequence |
| Generator.ParsesExactly | src/wapp_planner/documents/generator.py:152-159 | a reply parses exactly when the object extracted from it validates against the asked intent's schema, and then to that body under that schema |
| Generator.BackoffTotal | src/wapp_planner/documents/generator.py:121-125 | n pauses take base * (2^n - 1) in all |
| Generator.WrappedParsesLikeBare | src/wapp_planner/documents/generator.py:152-159 | a response wrapped in prose is parsed like the bare object |
| Base64Url.DecodeEncode | src/wapp_planner/hitl/tokens.py:75-90 | decoding undoes encoding for all byte strings (section 5 of RFC 4648) |
| Base64Url.SymbolRuns | src/wapp_planner/hitl/tokens.py:75 | the alphabet is that of table 2 of RFC 4648 |
| Base64Url.GroupBits | src/wapp_planner/hitl/tokens.py:75 | the four sextets are the 24 bits of three bytes, most significant first |
| Base64Url.EncodeGroup | src/wapp_planner/hitl/tokens.py:75 | each group of symbols spells its three bytes, padded at the end (section 4 of RFC 4648) |
| Base64Url.RepadStrip | src/wapp_planner/hitl/tokens.py:75-90 | stripping the padding and restoring it from the length alone is the identity on encodings, and no encoding contains a dot |
| Base64Url.UnpaddedRoundTrip | src/wapp_planner/hitl/tokens.py:75-90 | the unpadded form round-trips for all byte strings |
| Tokens.SplitJoin | src/wapp_planner/hitl/tokens.py:81-84 | two dot-free parts joined by a dot split into those two |
| Tokens.VerifyIssued | src/wapp_planner/hitl/tokens.py:56-92 | an issued link verifies to its token exactly before the end of its lifetime, and is expired from then on |
| Tokens.IssuedShape | src/wapp_planner/hitl/tokens.py:66-77 | an issued link is an unpadded payload, a dot and its signature |
| Tokens.VerifyAcceptsIff | src/wapp_planner/hitl/tokens.py:79-92 | a string is accepted exactly when it is a correctly signed, decodable, unexpired payload |
| Tokens.IssueInjective | src/wapp_planner/hitl/tokens.py:56-77 | equal links issued at one time carry equal tokens |
| Tokens.LinksAreIssued | src/wapp_planner/hitl/messages.py:25-63 | each link sent for a request resolves, while it lives, to an action on that request whose correction names a kind of document |
| Tokens.LinksMean | src/wapp_planner/hitl/messages.py:25-63 | the first four links confirm, correct to a quote, correct to an execution plan and reject, the other two approve and ask to revise; each resolves, until it expires, to its request, gate, revision and the typed feedback |
| Transcript.SampleVideo | src/wapp_planner/media/processor.py:145-153 | the audio segment and one segment per frame, or the first exception and nothing else |
| Transcript.BuildTranscript | src/wapp_planner/media/processor.py:74-91 | the blocks of the messages in stable order, a failing message's block being one unprocessable segment |
| Transcript.SortedIsStable | src/wapp_planner/media/processor.py:79 | the order used is an ascending permutation that keeps messages of equal order in list order |
| Transcript.TranscriptIgnoresListing | src/wapp_planner/media/processor.py:74-91 | with distinct orders the transcript does not depend on how the messages are listed |
| Transcript.AggregatedInArrivalOrder | src/wapp_planner/media/processor.py:74-91 | messages as aggregation numbers them are transcribed in arrival order |
| Transcript.FailureIsIsolated | src/wapp_planner/media/processor.py:74-90 | in the transcript of any messages, breaking one message's media turns its block, where the order puts it, into exactly one unprocessable segment and changes no other block |
| Transcript.HasContentIff | src/wapp_planner/media/processor.py:44-47 | the transcript has content exactly when some message could be processed |
| TranscriptContents.TranscriptTells | src/wapp_planner/media/processor.py:74-153 | a transcript is, message by message in order: a text's text or nothing, what its provider makes of its own media (after a non-empty caption or file name; for a video the sound, then each frame in order), under the kind's label and the arrival time, or the reason it could not be processed |
| TranscriptContents.FailsExactlyWhen | src/wapp_planner/media/processor.py:80-153 | a message says nothing exactly when it has no media or a provider it needs raises, and the first such exception is the reason |
| TranscriptContents.KindNameIsTypeName | src/wapp_planner/media/processor.py:84 | a failure is reported under the name its type arrived under, voice notes apart |

## Left out

- Parser.ParseWebhook: the Python exceptions of an ill-shaped body are one exception here, because every one of them abandons the body the same way; `str()` of a JSON value and the reading of a timestamp are parameters, so a timestamp out of range, which raises, is not modelled.
- Base64Url.Decode: refuses characters outside the alphabet where Python's decoder skips them; only a correctly signed string that was never issued could contain one.
- Tokens.VerifyIssued: the signature, the hash and the token's JSON form are parameters; assumed are a dot-free signature and JSON that reads back what it wrote. No cryptographic claim is made.
- Generator.Generator.Generate: model replies, JSON decoding and schema validation are parameters, and token counts and cost are left out; an unknown prompt version, a deployment error, is not modelled.
- Orchestrator.Orchestrator.GenerateRenderDeliver: the generator's outcome enters as an oracle, `Generator.Generate` being proved separately; rendering is two files with distinct extensions.
- Orchestrator.Orchestrator.StoreAndDeliver: sending is one effect that happens or raises; that one channel may have been sent to before another raises is not modelled.
- Orchestrator.Orchestrator.Ingest: the transcript enters as its rendered text, `Transcript` being proved separately; text, branding and recipients of notifications are left out.
- Transcript.BuildTranscript: providers are functions of their inputs, so two equal inputs get equal answers within one transcript.
- Ingestion.IngestionService.BuildMessage: the type and size checks on a download are part of whether the download succeeds, an oracle; a put that fails counts as a failed download.
- Ingestion.IngestionService.Receive: each call is atomic, so threads interleaving inside one call are not modelled; signature checking and JSON decoding enter as outcomes, and the client registry is a function from senders.
- AggregatorRuns.RestartTransparent: the snapshot is a copy of the buckets, whereas `export_state` shares live ones with its caller (`Aggregator.Aggregator.ExportState` says so). `Aggregator.Restart` shares them too, and is stated for the moment of the restart.
- LifecycleRuns.DecisionGrammar: an action's gate and revision number are not matched against the request, because the code does not check them.
- FastAPI handlers, settings, secrets and the composition root: wiring only.
- OpenAI, S3, SMTP, Graph API and ffmpeg adapters: foreign calls, replaced by oracles.
- PDF and DOCX rendering, prompts, money formatting and notification wording: no protocol behaviour.
- The subscription handshake, channel selection and classification parsing: one-branch facts.
