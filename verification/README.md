# LemmaComputer: protocols and their guarantees

This project models the stateful protocols of LemmaComputer and proves what each of them keeps across interleavings,
faults and chunk boundaries. Nothing was executed: every statement below is a Dafny contract.

The modules follow the system.

- **The chat turn.** `TurnText` is the incremental parser for the needs-input marker; `TurnAdapter` the workspace
  adapter that numbers vendor events into one canonical log, published by a detached producer; `TurnRegistry` the adapter's
  registry of sessions and turns; `EventStream` Control's frame reader and validating automaton; `ChatMessage` the
  persisted message and its later reconciliation; `MessageRestarts` the messages of turns that start more than once;
  `ChatInterface` the live chunks and the client that folds them; `TurnPipeline` all of it end to end, and
  `TurnRefusals` the turns that the adapter completes and Control refuses. `TurnTelling` says what a turn tells, input by
  input, `EventSchema` what the schema asks, field by field, and `MessageParts` what a message shows, event by event.
  `TurnExecutor` drives the process, the run record, the activity log and the message from one stream and compensates;
  `TurnCalls` is which calls each event makes, `TurnGuarantees` what every execution then promises. `ActivityLog` records
  a turn's activity and replays it to subscribers. `ChatEvents` and `Text` are shared vocabulary.
- **Crash-safe sagas.** `DemoUpdate` is the cutover and rollback of a demo deployment with its journal;
  `ArtifactIngestion` the saving of a file with its compensation and the sweep of expired uploads, `ArtifactOutcome` when it
  succeeds.
- **Telegram.** `TelegramGrouping`, `TelegramPolling` and `TelegramDelivery` group updates, run at most one turn for
  each, and deliver replies in resumable steps; `TelegramMessages` says what groups and replies read, `TelegramTurns` which
  updates each turn answers.
- **Usage.** `UsageLineage` is the signed chain of admissions over retries, fallbacks and hook re-entry; `UsageRoots`
  says when the admissions of one call have more than one root and `UsageSteps` when a request goes on; `UsageRegistry` is
  the bounded cache of admitted states, `UsageMemory` what it holds after each operation.
- **Connectors.** `ToolNaming` gives connector tools unique names and `ToolLabels` says what they read; `ConnectorReview` gates
  tools on reviewed definition hashes; `PolicyApplication` aggregates policy versions over members and combines decisions;
  `InstanceKeySearch` looks for a caller-supplied key in a cyclic value.

A call into a store, a process or the network is modelled by its effect and by whether it succeeds; where it matters a
call may also take effect and look failed. A crash is a run whose remaining calls all fail. Hash digests and signatures
are injective, so a digest is represented by what it digests, and a signature that does not verify by an absent value.

## What turned out false

Some properties that the design suggests do not hold of the code. For each there is a lemma or method with the input
that shows it, and a statement of exactly when the property does hold.

- Control does not take every turn that the adapter completes. A closed adapter log is accepted exactly when it also
  conforms to the event schema (`AdapterLogAccepted`): at most 100,001 events, message text and deltas within their limits
  in UTF-16 units, where the adapter counts code points, and so the prose and the forms of every other field. For a
  completed turn that is decided by the vendor's inputs (`CompletedConformsIff`). Vendor inputs that fail it: more than
  64,000 supplementary characters of text (`SupplementaryTurnRefused`), 100,000 one-character deltas (`LongTurnRefused`), a
  tool report of 251 supplementary characters or of one zero-width no-break space (`SummaryTurnRefused`,
  `SupplementarySummary`, `InvisibleSummary`). In the Basic Multilingual Plane only the number of events is left
  (`BasicPlaneTurnAccepted`).
- White space after the needs-input marker is dropped or kept depending on how the vendor split its text
  (`MarkerSpaceDependsOnSplit`, for every such text). All splittings of a text give the same message exactly when no
  white space comes directly after a leading marker (`SplitsAgreeIff`).
- The stream validator lets a second `turn-start` through, after which the accumulator's index points into an older
  message (`SecondStartBreaksIndex`). The "reused a chat part identifier" error is thrown exactly by a delta whose text
  was first stored at a place that is missing from the current message or holds something else (`PartReusedIff`), which
  needs a start in between (`ReuseNeedsRestart`). A second start also begins a second run record; with one start there
  is one run (`CompletedTurn`).
- A cancellation that arrives before `turn-start` is published leaves a log that no subscriber accepts (`ProduceTurn`
  closes a valid log exactly when it came later, `UnstartedTurnRefused`). A session is refused for good exactly when a
  turn holds it that was cancelled before it was registered or before its coroutine first ran (`RefusedForGoodIff`). The
  first of these is an over-approximation: the source has no suspension point between reserving and registering.
- A turn that breaks off is recorded as failed exactly when a message had been started, that is when its first event
  reached a checkpoint; before that the run record stays unfinished (`FailureIsPersisted`).
- A crash while the temporary link of a deployment switch exists, or while the journal or a record is being rewritten
  in place, needs an operator: `StaleLinkStopsRecovery` shows it for the link, `Rollback` and `RecoverFromCutover` say
  that nothing else does. A staging that breaks off leaves its directory, and the same release is then refused
  (`BrokenStagingBlocksRetry`); `Update` refuses exactly for that, a pending journal or a bundle that fails its checks.
- When a commit takes effect but looks failed, compensation deletes the bytes of the committed revision
  (`CommittedBytesLostIff`). Staged bytes leak exactly when staging looked failed or when neither the upload's row nor
  the compensating deletion went through (`LeakedIff`). An ingest that outlives its row can leak as well
  (`LateIngestLeaks`), but only because a sweeper retired the row while an object was there or still to come
  (`LeakedAnytimeIff`).
- A Telegram preview that took effect but looked failed is forgotten, and its text is sent again
  (`LostPreviewIsRepeated`). A preview that the final text does not go on from stays in the chat beside the full reply
  when its replacement cannot be sent, with every acknowledgement received (`StalePreviewStays`). Preview and delivered
  chunks are together the reply exactly when the first and the last preview call to take effect were acknowledged and
  the final text goes on from the last acknowledged preview (`Answer`). If the turn throws, its failure message stands
  alone exactly when no preview call took effect (`AnswerFailure`).
- The usage registry reads the clock before it waits for its lock, so the state just remembered can be the one evicted;
  `RememberedUnlessCrowded` says exactly when, `CrowdLosesNewcomer` gives a run that ends so.
- An attempt that comes back after another one took over, at the same fallback depth and retry ordinal, conflicts with
  its own admission and strips the chain, and so does a refused attempt: the next attempt becomes a second root
  (`ReturningSplitsTheLineage`, `RefusalSplitsTheLineage`, both instances of `FailureSplitsTheLineage`). A call has a
  second root exactly when an attempt is admitted after another one and brings no chain, either because LiteLLM did not
  carry it or because no hook has succeeded since one that stripped it (`TwoRootsIff`).

## Model

| member | source | states |
|---|---|---|
| TurnText.VerdictIsStable | docker/workspace/lemmacomputer-agent-chat.py:1519-1530 | once a prefix of the vendor text decides whether the marker leads, no further text changes that verdict or the text after the marker |
| TurnText.FeedAllExplains | docker/workspace/lemmacomputer-agent-chat.py:1517-1531 | after any deltas the parser's four variables are explained by their concatenation alone: undecided text is held back, decided text is out |
| TurnText.TextFidelity | docker/workspace/lemmacomputer-agent-chat.py:1517-1542 | whatever the split, the needs-input flag is a function of the whole text, unmarked text survives unchanged and marked text survives up to white space directly after the marker |
| TurnText.SplitIndependence | docker/workspace/lemmacomputer-agent-chat.py:1609-1622 | two splittings of one text, flushed at the end, agree on the flag and on the text up to leading white space, and exactly unless white space comes directly after a marker |
| TurnText.MarkerSpaceDependsOnSplit | docker/workspace/lemmacomputer-agent-chat.py:1522-1524 | for every text with white space directly after a leading marker, two splittings that disagree about it: dropped with the marker's own delta, kept in a later one |
| TurnText.SplitsAgreeIff | docker/workspace/lemmacomputer-agent-chat.py:1518-1530 | all splittings of a text release the same message exactly when no white space comes directly after a leading marker |
| TurnAdapter.DetachedTurn.Publish | docker/workspace/lemmacomputer-agent-chat.py:227-232 | appends one event and notes a terminal one; nothing published is ever changed |
| TurnAdapter.DetachedTurn.Close | docker/workspace/lemmacomputer-agent-chat.py:234-237 | marks the turn done and changes nothing else |
| TurnAdapter.DetachedTurn.NextBatch | docker/workspace/lemmacomputer-agent-chat.py:239-252 | a subscriber's batch continues its prefix of the log exactly, so what it has seen is always a prefix and after close the whole log |
| TurnAdapter.Subscribe | docker/workspace/lemmacomputer-agent-chat.py:239-252 | whatever is published around its wake-ups, a subscriber has always seen a prefix of the log, all but what arrived since it last woke up, and returns exactly when it wakes up to a closed log with nothing more to come, having seen all of it |
| TurnAdapter.TurnStream.Emit | docker/workspace/lemmacomputer-agent-chat.py:1454-1477 | the next number goes to exactly this body, or the cancellation strikes first and the log is untouched |
| TurnAdapter.TurnStream.EmitSlices | docker/workspace/lemmacomputer-agent-chat.py:1538-1542 | slicing at 16,000 characters adds exactly the text to the log, in exactly those slices, and tells nothing else; wherever it is interrupted it has told a beginning of them |
| TurnAdapter.TurnStream.Release | docker/workspace/lemmacomputer-agent-chat.py:1535-1542 | raises exactly when the text would pass the 128,000 limit, else the log's text grows by it |
| TurnAdapter.TurnStream.Decide | docker/workspace/lemmacomputer-agent-chat.py:1518-1530 | one delta through the marker buffer is one step of the parser, and the returned text is what it released |
| TurnAdapter.TurnStream.OnText | docker/workspace/lemmacomputer-agent-chat.py:1517-1542 | a delta advances parser, log and approach buffer together, or raises because the released text is too long; whatever stops it, the log tells a beginning of the released slices |
| TurnAdapter.TurnStream.FlushPending | docker/workspace/lemmacomputer-agent-chat.py:1609-1620 | undecided text at the end is told as ordinary text, under the same limit |
| TurnAdapter.TurnStream.AnnouncePlan | docker/workspace/lemmacomputer-agent-chat.py:1509-1516 | the approach plan is told once, before the first tool or web action, and only if the text reads like one |
| TurnAdapter.TurnStream.OnActivity | docker/workspace/lemmacomputer-agent-chat.py:1543-1599 | every other vendor event is told exactly once with its own body, text untouched, and a finish is remembered |
| TurnAdapter.TurnStream.OnInput | docker/workspace/lemmacomputer-agent-chat.py:1490-1508 | heartbeats, vendor events and exceptions each take their own effect on text, activities and the state the turn is to end in |
| TurnAdapter.TurnStream.Consume | docker/workspace/lemmacomputer-agent-chat.py:1489-1606 | after the vendor loop the log tells exactly the released text in slices and every activity, in the order of the inputs, unless it was interrupted or raised for a reason found in the inputs; even then it tells a beginning of that |
| TurnAdapter.TurnStream.TellOutbox | docker/workspace/lemmacomputer-agent-chat.py:1627-1632 | the collected files in order and then the notice are told, each once |
| TurnAdapter.TurnStream.Epilogue | docker/workspace/lemmacomputer-agent-chat.py:1623-1639 | the plan as done, files and notice of a completed turn, and the work as done are told in that order; it raises exactly for a failing outbox of a completed turn |
| TurnAdapter.TurnStream.EmitFinish | docker/workspace/lemmacomputer-agent-chat.py:1640-1646 | closes an open log with the given state, text and activities unchanged |
| TurnAdapter.TurnStream.Conclude | docker/workspace/lemmacomputer-agent-chat.py:1609-1646 | the end of the generator: held-back text, the needs-input marker, epilogue and finish, or a failure for exactly the reasons in the inputs |
| TurnAdapter.FinalStateIff | docker/workspace/lemmacomputer-agent-chat.py:1607-1646 | for every vendor behaviour a condition on the inputs for each final state: needs-input for a last finish that says so or a completed one with a leading marker, completed for one without a marker and a collected outbox, cancelled for a cancelled one, each with no fault, nothing after the finish and the text within 128,000; failed otherwise |
| TurnAdapter.EndIsUnique | docker/workspace/lemmacomputer-agent-chat.py:1607-1656 | the inputs and the outbox allow exactly one end: state, message and vendor session |
| TurnAdapter.TurnStream.Body | docker/workspace/lemmacomputer-agent-chat.py:1479-1646 | without an exception the log tells all of an undisturbed turn and is closed in the one state, with the message and session, that the inputs and the outbox give it; with one it tells a beginning of that |
| TurnAdapter.TurnStream.Run | docker/workspace/lemmacomputer-agent-chat.py:1443-1659 | the generator always ends in a closed log, failed for any exception, or in an open one at the cancellation point |
| TurnAdapter.ProduceTurn | docker/workspace/lemmacomputer-agent-chat.py:1657-1693 | whatever the vendor sends and wherever an exception or the one cancellation strikes, the published log is a complete turn exactly when the cancellation did not precede turn-start; its end is the one the inputs give it or, if cancelled first, the cancellation; text and activities, in order, are a beginning of what an undisturbed turn tells, and all of it for a completed turn |
| TurnAdapter.FinishCloses | docker/workspace/lemmacomputer-agent-chat.py:1667-1684 | the cancellation event numbered by the published log closes it, unless nothing was published |
| TurnTelling.NotesMean | docker/workspace/lemmacomputer-agent-chat.py:1454-1606 | the adapter's plan is always the latest one told, its approach the beginning of the text, and its work begun exactly by a tool or a heartbeat |
| TurnTelling.InputTells | docker/workspace/lemmacomputer-agent-chat.py:1490-1599 | what one input tells after those before it: a heartbeat its progress, text what it releases in slices, any other event itself field by field, after the approach plan if it is the first tool or web action without a plan |
| TurnTelling.ClosingTells | docker/workspace/lemmacomputer-agent-chat.py:1609-1639 | what follows the inputs: held-back text, the latest plan as done, the files and the notice of a completed turn, and the work as done, in that order |
| TurnTelling.SlicesAre | docker/workspace/lemmacomputer-agent-chat.py:1538-1542 | slice i holds the 16,000 characters from 16,000 times i on, the last one the rest |
| TurnRegistry.RunsAreValid | docker/workspace/lemmacomputer-agent-chat.py:1434-1437 | over every interleaving of start, register, run, end, clean-up and early cancellation of a request or a coroutine, active sessions are those held by exactly one turn and registrations point at live turns |
| TurnRegistry.StepIs | docker/workspace/lemmacomputer-agent-chat.py:1434-1442 | when each step has something to do and what it then does: its own turn's place, the session taken by a start and freed by the end of the stream, the registration set by registering and removed by its own clean-up, and nothing else |
| TurnRegistry.LifeOfTurn | docker/workspace/lemmacomputer-agent-chat.py:1657-1693 | a turn on a free session comes to stream, reachable by a cancellation, and afterwards leaves the session free and unregistered |
| TurnRegistry.OneReachableTurnPerSession | docker/workspace/lemmacomputer-agent-chat.py:1702-1714 | a streaming turn is the only unfinished one of its session and is the one a cancellation finds |
| TurnRegistry.LateCleanUpKeepsNewerTurn | docker/workspace/lemmacomputer-agent-chat.py:1685-1689 | the late clean-up of an old turn leaves the registration of a newer one of the same session in place |
| TurnRegistry.RefusedIff | docker/workspace/lemmacomputer-agent-chat.py:1435-1436 | a turn is refused exactly while some turn of the session has not released it |
| TurnRegistry.EndedStreamFreesSession | docker/workspace/lemmacomputer-agent-chat.py:1657-1659 | the end of a stream always lets the next turn of the session start |
| TurnRegistry.LostTurnKeepsItsSession | docker/workspace/lemmacomputer-agent-chat.py:1691-1693 | a request cancelled before it registers its turn, or a coroutine cancelled before it first runs, keeps its session refused whatever happens next |
| TurnRegistry.RefusedForGoodIff | docker/workspace/lemmacomputer-agent-chat.py:1434-1437 | a session stays refused in every continuation exactly when such a lost turn holds it; any other holder can still release it |
| EventStream.AcceptsWellFormedPrefixes | apps/control-api/src/agent-chat.ts:371-390 | the validator's automaton, with the event schema, accepts exactly the well-formed prefixes, and its four variables summarise them |
| EventStream.AcceptedIff | apps/control-api/src/agent-chat.ts:395-397 | a stream is accepted exactly when it is well formed and ends with its turn-finish |
| EventStream.AdapterLogAccepted | apps/control-api/src/agent-chat.ts:369-390 | refinement between the two languages: a closed adapter log is accepted exactly when it conforms to the event schema in the number of its events, in UTF-16 units of text and in every other field |
| EventStream.BasicPlaneTurnAccepted | packages/contracts/src/index.ts:1723-1809 | a turn in the Basic Multilingual Plane and within the adapter's own limits is accepted exactly up to 100,001 events |
| EventStream.PlainFits | packages/contracts/src/index.ts:1733-1758 | prose that is not blank, lies in the Basic Multilingual Plane and keeps its limit in code points passes Control's trimmed limit in UTF-16 units |
| EventSchema.SchemaIs | packages/contracts/src/index.ts:1723-1819 | type by type, the exact condition on every field under which Control takes an event |
| EventSchema.ParsedTells | packages/contracts/src/index.ts:1723-1819 | an accepted event is handed on as it came but for the blank ends of its prose, and what is handed on would be accepted and handed on unchanged again |
| EventStream.SupplementarySliceRefused | apps/control-api/src/agent-chat.ts:385 | a closed adapter log that Control refuses |
| EventStream.StreamTurn | apps/control-api/src/agent-chat.ts:344-401 | the reader succeeds exactly when no chunk overflows its buffer, every line decodes to an accepted event, the last is a turn-finish and only white space is left; its consumer always gets a prefix of the same events, their prose trimmed |
| EventStream.TakeLines | apps/control-api/src/agent-chat.ts:359-392 | the inner loop consumes exactly the complete lines of the buffer and steps the automaton on each non-empty one |
| EventStream.ChunkingIsInvisible | apps/control-api/src/agent-chat.ts:352-393 | however the wire form of a log is cut, reading it gives the automaton's verdict and the whole log with its prose trimmed |
| EventStream.OversizedFrameNeverFits | apps/control-api/src/agent-chat.ts:356-358 | a frame above 64 KiB is refused under every cutting |
| ChatMessage.AgentMessageAccumulator.Apply | apps/control-api/src/agent-chat.ts:518-609 | one event moves the message and the text index as specified, or throws and leaves both alone |
| MessageParts.ActivityWrites | apps/control-api/src/agent-chat.ts:547-592 | a progress, labelled tool or approval event writes one part that shows it field by field, at the first place with its identifier or at the end, and touches nothing else |
| MessageParts.FileWrites | apps/control-api/src/agent-chat.ts:575-592 | a stored file adds a part with its revision at the end |
| MessageParts.FinishWrites | apps/control-api/src/agent-chat.ts:593-608 | a finish closes every part in place with the words of its state, shows itself last and sets the message's state |
| MessageParts.StateIs | apps/control-api/src/agent-chat.ts:518-609 | for every log, however often it starts: the message has no final state exactly while no finish follows the last start, and else the state of the last one that does |
| MessageParts.FinishedMessage | apps/control-api/src/agent-chat.ts:593-608 | a log that ends with a finish gives a message in that state that shows it last |
| MessageParts.PartIsShown | apps/control-api/src/agent-chat.ts:547-592 | a stored file stays in the message unless an activity takes its identifier, an activity up to the end of the turn |
| MessageParts.HistoryShows | apps/control-api/src/agent-chat.ts:171-225 | reconciling, part by part: an approval whose operation is known shows that operation's state and text; of a finished message running work is closed and running tools have failed; everything else stays |
| ChatMessage.AccumulatesIff | apps/control-api/src/agent-chat.ts:535-546 | a log with one start is accumulated exactly when its files are finalised; every stored index points at a text part |
| ChatMessage.SecondStartBreaksIndex | apps/control-api/src/agent-chat.ts:519-532 | a concrete log with two starts on which the accumulator throws |
| ChatMessage.TextsAreDeltas | apps/control-api/src/agent-chat.ts:535-546 | for any mixture of text identifiers each text part is the concatenation of its own deltas |
| ChatMessage.MessageKeepsText | apps/control-api/src/agent-chat.ts:535-546 | the persisted text of an adapter's turn is exactly the text of its log |
| ChatMessage.FinishSettles | apps/control-api/src/agent-chat.ts:593-608 | after turn-finish no part is streaming or running, whatever came before |
| ChatMessage.ReconcileIsStable | apps/control-api/src/agent-chat.ts:171-225 | reconciling twice is reconciling once, it settles everything of a finished message, and of an accumulated one it changes approvals only |
| MessageRestarts.AccumulatesUnless | apps/control-api/src/agent-chat.ts:518-609 | for any log, with any number of starts, the accumulator throws exactly at the first event that the log itself shows to be obstructed, and with that reason |
| MessageRestarts.PartReusedIff | apps/control-api/src/agent-chat.ts:535-546 | the reused-identifier error is thrown exactly by a delta of a text stored at a place that the current message lacks or fills with another kind of part |
| MessageRestarts.ReuseNeedsRestart | apps/control-api/src/agent-chat.ts:519-532 | such a delta needs a turn-start between the text's first delta and itself |
| ChatInterface.AgentUiStreamMapper.Chunks | apps/control-api/src/agent-chat.ts:410-509 | an event's chunks and the new set of open texts, including the end of every open text at turn-finish; it throws exactly for a file that is not stored, and begins a text exactly before its first delta |
| ChatInterface.EventIsTold | apps/control-api/src/agent-chat.ts:410-509 | what a client is sent for each event of a log: the part that the message shows of it, a text's beginning before its first delta alone, and at the end the end of every text begun, once, before the finish in its state |
| ChatInterface.ClientSeesMessage | apps/control-api/src/agent-chat.ts:404-510 | a client that folds the chunks meets no error and ends with the texts, approvals and file references of the persisted message |
| ChatInterface.LiveTurn | apps/control-api/src/agent-chat.ts:404-510 | the mapper run over a turn throws exactly for a file that is not stored; each event is told by its own chunks and nothing else is sent, and folding them gives the texts, approvals and files of the persisted message |
| TurnPipeline.ReadTurn | apps/control-api/src/agent-chat.ts:351-398 | a read of an adapter's wire succeeds exactly when its frames fit and its log conforms, and then the trimmed and finalised log accumulates to a message in the log's final state, with its text and every stored file whose identifier no later activity takes |
| TurnPipeline.RelayTurn | apps/control-api/src/agent-chat.ts:535-546 | end to end over every vendor behaviour, every exception, the one cancellation anywhere and every cutting of the wire: Control takes the turn exactly when it had started, its frames fit and its log conforms to the event schema; the message has the state that the log ends with, every file as stored unless a later activity takes its identifier, and the log's text: all that the vendor's deltas release if completed or needing input and a beginning of it otherwise |
| TurnPipeline.UnstartedTurnRefused | apps/control-api/src/agent-chat.ts:371-390 | a turn cancelled before turn-start is refused under every cutting of its wire |
| TurnRefusals.SupplementaryTurnRefused | apps/control-api/src/agent-chat.ts:384-389 | vendor inputs whose text the adapter releases whole as a completed turn and Control refuses however the wire is cut |
| TurnRefusals.ConformsIff | packages/contracts/src/index.ts:1723-1809 | whether a closed log conforms is decided by how much it tells, by the UTF-16 length of its text, by each body told and by its frame |
| TurnRefusals.CompletedConformsIff | packages/contracts/src/index.ts:1723-1809 | for a completed turn the same, with everything told computed from the vendor's inputs |
| TurnRefusals.LongTurnRefused | packages/contracts/src/index.ts:1725 | 100,000 to 128,000 one-character deltas that the adapter completes and Control refuses for the number of events |
| TurnRefusals.LettersTold | docker/workspace/lemmacomputer-agent-chat.py:1517-1542 | every one-character delta is released and told as an event of its own |
| TurnRefusals.SummaryTurnRefused | docker/workspace/lemmacomputer-agent-chat.py:1006-1013 | a tool report whose summary passes the adapter's cut and not Control's limit: the adapter completes the turn and Control refuses it however the wire is cut |
| TurnRefusals.SupplementarySummary | docker/workspace/lemmacomputer-agent-chat.py:291-294 | reports of 251 to 500 supplementary characters are such reports |
| TurnRefusals.InvisibleSummary | docker/workspace/lemmacomputer-agent-chat.py:291-294 | a zero-width no-break space is one too: white space to Control and not to the adapter |
| TurnRefusals.SqueezedWord | docker/workspace/lemmacomputer-agent-chat.py:291-294 | white space goes but for one space between two words |
| TurnRefusals.SafeSummaryIs | docker/workspace/lemmacomputer-agent-chat.py:291-294 | a summary is the words of the vendor's message cut at 500 characters, or the fallback if there are none |
| TurnExecutor.TurnExecution.Checkpoint | apps/control-api/src/chat-turn-executor.ts:73-81 | attempts apply, snapshot, save and bind in that order, as far as each succeeds and applies |
| TurnExecutor.TurnExecution.StartProcess | apps/control-api/src/chat-turn-executor.ts:89-100 | marks the process running before it begins the run record; the process counts as started exactly when marking succeeded |
| TurnExecutor.TurnExecution.Prelude | apps/control-api/src/chat-turn-executor.ts:89-105 | start, projection and activity record in order, stopping at the first failure |
| TurnExecutor.TurnExecution.FinishTurn | apps/control-api/src/chat-turn-executor.ts:107-119 | vendor session, run record and process end in order, the reason as `CompletedTurn` says; the process counts as ended exactly when ending succeeded |
| TurnExecutor.TurnExecution.OnEvent | apps/control-api/src/chat-turn-executor.ts:88-121 | one iteration makes a prefix of the event's calls, all of them on success, and advances the message by the projected event |
| TurnExecutor.TurnExecution.Try | apps/control-api/src/chat-turn-executor.ts:82-123 | the try block follows the script of the stream up to its first failure |
| TurnExecutor.TurnExecution.CloseRun | apps/control-api/src/chat-turn-executor.ts:138-146 | the closing calls for the failed event, stopping at the first failure |
| TurnExecutor.TurnExecution.Compensate | apps/control-api/src/chat-turn-executor.ts:124-148 | ends the process unless it has ended, then records the failure and closes the run, each attempted whatever the others did |
| TurnExecutor.TurnExecution.Execute | apps/control-api/src/chat-turn-executor.ts:56-150 | every call ever attempted, for every stream, every way it can end and every placement of failures, is an execution as specified |
| TurnCalls.EventMakes | apps/control-api/src/chat-turn-executor.ts:88-121 | the calls for one event, kind by kind: each exactly under its condition and with its arguments, at most once, and in this order |
| TurnCalls.ScriptMakes | apps/control-api/src/chat-turn-executor.ts:82-123 | a call is in the script of a stream exactly if one of its events makes it |
| TurnCalls.CloseMakes | apps/control-api/src/chat-turn-executor.ts:130-146 | the closing calls, kind by kind: exactly those of a failed run with a message, saving what the failed event makes of it |
| TurnGuarantees.ScriptCounts | apps/control-api/src/chat-turn-executor.ts:88-121 | an undisturbed run begins a run record per turn-start and finishes one and ends the process per turn-finish |
| TurnGuarantees.EndIsAttempted | apps/control-api/src/chat-turn-executor.ts:116-129 | every execution attempts to end the process before it exits |
| TurnGuarantees.AtMostOneEndSucceeds | apps/control-api/src/chat-turn-executor.ts:116-129 | on every stream the validator lets through at most one attempt to end the process succeeds |
| TurnGuarantees.LaunchFailedMeansNeverRunning | apps/control-api/src/chat-turn-executor.ts:127 | launch_failed is never reported for a process that was marked running |
| TurnGuarantees.ExitedMeansFinished | apps/control-api/src/chat-turn-executor.ts:116-129 | process_exited is only ever reported after a turn-finish whose state is not failed |
| TurnGuarantees.BrokenRunEnds | apps/control-api/src/chat-turn-executor.ts:124-129 | a process not yet ended when an execution breaks off is ended first, as provider_failed exactly if it had been marked running and else as launch_failed |
| TurnGuarantees.ReturnsIff | apps/control-api/src/chat-turn-executor.ts:122-150 | an execution returns normally exactly if the stream ended by itself, with a turn-finish in it, and every call of its script went through |
| TurnGuarantees.StreamIsRecorded | apps/control-api/src/chat-turn-executor.ts:101-105 | the activity log of an undisturbed run is the projected stream, in order |
| TurnGuarantees.NormalReturn | apps/control-api/src/chat-turn-executor.ts:122-123 | a normal return means every call of the script succeeded, runs were begun and finished as often as the stream starts and finishes, and every event is recorded |
| TurnGuarantees.AcceptedTurnRunsOnce | apps/control-api/src/chat-turn-executor.ts:89-119 | a stream that the validator accepts and that starts once begins one run and finishes it |
| TurnGuarantees.CompletedTurn | apps/control-api/src/chat-turn-executor.ts:82-123 | a normal return on an accepted stream with one start is one run, begun once for the turn and later finished once in the state the stream ended with; the process is ended once, as provider_failed exactly if that state is failed and else as process_exited; the message saved shows the end and has its state, the vendor session is the finish's, and every event is recorded in order |
| TurnGuarantees.FailureIsPersisted | apps/control-api/src/chat-turn-executor.ts:130-146 | without further faults a turn broken off in mid-stream puts a failed terminal numbered after its last event on the activity log, and saves the message in the failed state, showing that terminal, and finishes the run exactly when a message had been started |
| ActivityLog.DedupeKeyInjective | apps/control-api/src/activity.ts:267 | the dedupe key determines the event's number, its type and the draft's position |
| ActivityLog.TypeNamesDiffer | apps/control-api/src/activity.ts:267 | events have the same type name exactly if they are of the same type |
| ActivityLog.ActivityStore.AppendActivityEvent | packages/workspace-store/src/index.ts:782-862 | appends under a new key with the next sequence, returns quietly under a known one |
| ActivityLog.ActivityStore.RecordAgentEvent | apps/control-api/src/activity.ts:247-275 | the drafts of an event are appended in order, up to the first failing append |
| ActivityLog.RowsOfTurn | apps/control-api/src/activity.ts:86-222 | the log of a turn holds under each event's keys exactly the rows that tell of it: kind and state for every type of event, none for text, files and unsafe sources, the error and the terminal for a failed finish |
| ActivityLog.RecordingIsIdempotent | apps/control-api/src/activity.ts:247-275 | recording an event again at any later time adds nothing, and completing a half-failed recording equals one faultless recording |
| ActivityLog.Subscribe | apps/control-api/src/activity.ts:277-319 | for any interleaving of appends with the two reads of each poll a subscriber gets exactly the events after its cursor, in order, without gap or repeat, ends by itself only behind the terminal event, and is told that there is no such turn exactly if the first poll finds nothing |
| ActivityLog.FinishedTurnEndsWithTerminal | apps/control-api/src/activity.ts:202-219 | the log of a finished turn ends with its only terminal event, preceded by the error when it failed |
| ActivityLog.EndedIsComplete | apps/control-api/src/activity.ts:277-292 | a subscription to a finished turn that ended by itself has delivered everything after its cursor |
| DemoUpdate.Deployment.Switch | scripts/release/demo-update-host.py:194-198 | selects the target atomically, or leaves the selection and possibly the temporary link; it refuses a stale link |
| DemoUpdate.Deployment.CopyRelease | scripts/release/demo-update-host.py:228-230 | the new directory and then its environment copy appear, either possibly the last thing done, under the journal invariant and without touching what exists |
| DemoUpdate.Deployment.Stage | scripts/release/demo-update-host.py:228-267 | staging goes through exactly when its steps do and the running release is recorded as active; then the candidate pins the new image for the affected services and the old ones for all others; wherever it stops it only adds files of the new release |
| DemoUpdate.Deployment.Prepare | scripts/release/demo-update-host.py:206-276 | staging in steps, record and journal change nothing that runs or is selected, copy the environment, and keep the journal invariant at every crash point; a staging that breaks off leaves the new directory and no journal |
| DemoUpdate.Deployment.CutOver | scripts/release/demo-update-host.py:277-287 | on success the new release is selected, running and recorded active without a journal; at every other point the cutover is still resumable |
| DemoUpdate.Deployment.Restore | scripts/release/demo-update-host.py:288-301 | the exception handler restores the previous images, then the link, then drops the journal, or leaves the cutover resumable; it only fails where one of its steps does or a stale link is in its way |
| DemoUpdate.Deployment.Update | scripts/release/demo-update-host.py:206-303 | refuses without effect exactly for a pending journal, a failing bundle or an existing directory; completed, the affected services run the new image and every other service what it ran; otherwise, under a crash or an exception anywhere, the journal invariant holds, existing environment files and images never change, and a rolled-back update leaves no journal; without a stale link a single exception anywhere in the cutover is always rolled back |
| DemoUpdate.Deployment.Rollback | scripts/release/demo-update-host.py:306-334 | refuses exactly without a readable record, keeps the invariant at every crash point, and when faultless completes exactly without a stale link |
| DemoUpdate.UpdateThenRollback | scripts/release/demo-update-host.py:206-334 | an update that completes and a rollback after it leave every service running the image it ran before |
| DemoUpdate.RunCommands | scripts/release/demo-update-host.py:206-334 | over every run of updates and rollbacks, each crashing or failing anywhere, no pending journal implies that the running images are those of the selected release, no environment file ever changes, and each command refuses, completes and leaves what it says |
| DemoUpdate.RecoverFromCutover | scripts/release/demo-update-host.py:306-334 | after an interrupted cutover and any number of interrupted rollbacks a completed one leaves release, images and journal as before; only a torn file or a stale link can prevent it |
| DemoUpdate.StaleLinkStopsRecovery | scripts/release/demo-update-host.py:194-198 | an update whose steps go through up to a crash inside its switch leaves a link at which every later rollback stops |
| DemoUpdate.BrokenStagingBlocksRetry | scripts/release/demo-update-host.py:228-229 | an update that breaks off right after making its directory changes nothing that runs, and every later attempt at the same release is refused |
| DemoUpdate.KeepsCutting | scripts/release/demo-update-host.py:277-301 | bringing services up, switching between the two releases and rewriting the record never leave the region from which rollback works |
| ArtifactIngestion.ArtifactVault.IngestBytes | apps/control-api/src/durable-chat.ts:41-127 | the saga with its compensation, for every fault at every call and any sweeper in between, changes only its own upload and exactly as specified |
| ArtifactIngestion.ArtifactVault.Finalize | packages/artifact-store/src/index.ts:275-291 | checks, copies, checks and deletes the original, stopping anywhere |
| ArtifactIngestion.ArtifactVault.CleanupExpiredStaging | apps/control-api/src/durable-chat.ts:229-242 | each listed upload is swept from its own listing, faults and interference of one never touching another |
| ArtifactIngestion.TryOutcome | apps/control-api/src/durable-chat.ts:68-119 | however far the try block got, the stores hold what that many calls leave, possibly faded by sweepers after expiry |
| ArtifactOutcome.SucceedsIff | apps/control-api/src/durable-chat.ts:68-119 | an ingest succeeds exactly when the conversation is still active, every call is acknowledged and the commit comes within the row's time to live; then there is one object, the final one, a committed row and a revision |
| ArtifactOutcome.FailureIsMarked | apps/control-api/src/durable-chat.ts:120-127 | the row of a failed ingest that ends in time: committed if the revision was, else failed if the mark arrived, else as it was |
| ArtifactOutcome.EndsLast | packages/workspace-store/src/chat.ts:801-820 | whatever anybody does next, a committed row stays committed with its revision and a retired one retired |
| ArtifactIngestion.CommittedBytesLostIff | apps/control-api/src/durable-chat.ts:113-125 | a successful ingest has bytes and revision; the bytes of a committed revision are lost exactly when the commit's acknowledgement was lost and the compensating deletion took effect |
| ArtifactIngestion.LeakedIff | apps/control-api/src/durable-chat.ts:68-125 | an ingest that ends before its row expires leaks exactly when its bytes were staged without a row and without deletion |
| ArtifactIngestion.SweepIsSafe | apps/control-api/src/durable-chat.ts:231-240 | a sweep either removes every object and retires the row or leaves the row listed |
| ArtifactIngestion.SagaSettles | apps/control-api/src/durable-chat.ts:94-101 | compensation, any number of faulty sweeps and one faultless sweep leave no object of an uncommitted upload and a committed one untouched |
| ArtifactIngestion.SweeperSparesCommitted | packages/workspace-store/src/chat.ts:801-820 | what a sweeper deletes from a stale listing can never belong to a revision, whatever else happens |
| ArtifactIngestion.LateIngestLeaks | apps/control-api/src/durable-chat.ts:102-125 | a concrete ingest that outlives its row and leaves an object nobody will sweep |
| ArtifactIngestion.LeakedAnytimeIff | apps/control-api/src/durable-chat.ts:68-125 | whatever the faults and however late, an ingest leaks exactly when staging looked failed, or neither row nor deletion went through, or a sweeper retired its expired row while an object was there or still to come |
| TelegramGrouping.GroupTelegramUpdates | apps/channel-broker/src/broker.ts:800-808 | the groups partition the updates in order, each grown only by permitted appends, and none could take the next group's first update |
| TelegramGrouping.GroupsAreMessages | apps/channel-broker/src/broker.ts:777-798 | no update is lost or reordered, and a group of several shares chat, sender and type, holds no command, at most four attachments and at most 4,096 units of text |
| TelegramMessages.CommandIff | apps/channel-broker/src/broker.ts:767-771 | a command is its name, perhaps a bot's, and then nothing or white space |
| TelegramMessages.CanAppendIff | apps/channel-broker/src/broker.ts:777-798 | an update goes on from a group exactly if nobody commands, the conversation is the same, attachments and text stay within their limits, and it follows by media group, by an attachment, or by text after an attachment |
| TelegramMessages.GroupsHold | apps/channel-broker/src/broker.ts:800-808 | each update after the first of a group belongs to those before it, and the first of the next group does not belong to the group before |
| TelegramMessages.GroupReads | apps/channel-broker/src/broker.ts:773-775 | a group reads as the trimmed texts of its updates that are not blank, each once and in order, one blank line between two |
| TelegramMessages.TextsOfOne | apps/channel-broker/src/broker.ts:773-775 | of one update a group reads the trimmed text, or nothing if that is blank |
| TelegramGrouping.GroupingIsUnique | apps/channel-broker/src/broker.ts:800-808 | the conditions determine the grouping completely |
| TelegramPolling.TelegramPoller.ProcessUpdates | apps/channel-broker/src/broker.ts:1199-1213 | a normal return has reserved every candidate, and the turn answers exactly those nobody had reserved before |
| TelegramPolling.TelegramPoller.PollConnection | apps/channel-broker/src/broker.ts:1058-1088 | the stored offset never goes back, and wherever the poll stops it has passed only updates of this poll that are reserved; its turns are a beginning of those of the updates' one grouping, each of updates that nobody had reserved before, and all of them if it succeeds |
| TelegramPolling.RunPolls | apps/channel-broker/src/broker.ts:1058-1088 | over any polls, crashes and restarts no update is answered by two turns or twice in one |
| TelegramPolling.SortSorts | apps/channel-broker/src/broker.ts:1065-1067 | sorting by identifier orders the updates and loses none |
| TelegramTurns.ConsideredTells | apps/channel-broker/src/broker.ts:1066-1080 | the updates that a poll groups: those fetched by number, equal numbers as they came; after waiting for companions each number once, as the second fetch has it or else as last in the first |
| TelegramTurns.TurnTells | apps/channel-broker/src/broker.ts:1199-1213 | a group has a turn exactly when it has updates that nobody reserved before; the turn answers exactly those, each once and by number |
| TelegramTurns.EveryUpdateIsAnswered | apps/channel-broker/src/broker.ts:1083-1088 | a poll whose calls all succeed, with open gates, answers exactly the updates that nobody had reserved |
| TelegramTurns.RunOpenPolls | apps/channel-broker/src/broker.ts:1058-1088 | over any run of polls that succeed, with open gates, the updates considered are behind the offset and the turns answer exactly those of them that had not been reserved before |
| TelegramDelivery.TelegramResponseStream.Append | apps/channel-broker/src/broker.ts:823-836 | a delta extends the text; a call is made only for a first text of 24 characters or a line, or 900 ms or 160 characters after the last, and once acknowledged the chat shows the text's first 4,000 characters |
| TelegramDelivery.TelegramResponseStream.Finish | apps/channel-broker/src/broker.ts:838-843 | the count returned is the length of the last acknowledged preview if the final text goes on from it, else 0; after an acknowledged last call it is all of the final text up to 4,000 characters |
| TelegramDelivery.TelegramResponseStream.Publish | apps/channel-broker/src/broker.ts:845-859 | one call: the chat, what is remembered of it and the record of acknowledgements move as specified; the remembered message is the only one exactly if the first call that took effect was acknowledged, and reads as remembered exactly if the last one was |
| TelegramDelivery.PublishedTells | apps/channel-broker/src/broker.ts:845-859 | a call is made exactly for a beginning that is neither blank nor on show; it sends or edits one message to read so, and only its acknowledgement is remembered |
| TelegramDelivery.RenderedCompletes | apps/channel-broker/src/broker.ts:1346-1353 | preview and stored remainder together are the text and its notices, each once, or the fallback for want of both |
| TelegramMessages.ReplyReads | apps/channel-broker/src/broker.ts:1346-1353 | the whole reply is the text and every notice that is not empty, each once and in order with one blank line between two; without either it is the fallback |
| TelegramMessages.GivenOne | apps/channel-broker/src/broker.ts:1351 | of one notice a reply reads that notice, or nothing if it is empty |
| TelegramMessages.JoinAppend | apps/channel-broker/src/broker.ts:1351 | joining two lists is joining each, with one blank line between |
| TelegramDelivery.PendingResponse.DeliverPendingResponse | apps/channel-broker/src/broker.ts:1090-1108 | resuming from the recorded offsets keeps what has arrived a beginning of the reply; a normal return means all of it arrived |
| TelegramDelivery.PendingResponse.AdvanceChannelResponseDelivery | packages/workspace-store/src/index.ts:1632-1648 | moves the text offset forward only and marks the response delivered exactly when text and artifacts are through |
| TelegramDelivery.PendingResponse.AdvanceChannelArtifactDelivery | packages/workspace-store/src/index.ts:1650-1667 | the same for the artifact offset, within its bound |
| TelegramDelivery.DeliverAcrossRestarts | apps/channel-broker/src/broker.ts:1090-1112 | over any attempts, each crashing anywhere, the sends with consecutive repeats collapsed are a prefix of the reply's items, and all of them once it is recorded delivered, which one attempt without faults is enough for |
| TelegramDelivery.ItemsSpell | apps/channel-broker/src/broker.ts:1090-1108 | the chunks spell the text, none is above 4,000 characters, and the artifacts follow in order |
| TelegramDelivery.Answer | apps/channel-broker/src/broker.ts:1323-1373 | from first delta to last artifact: once delivered, the chat's preview and the delivered chunks are together the whole reply exactly when the first and the last preview call to take effect were acknowledged and the final text goes on from the last acknowledged preview; the first condition holds if no acknowledgement is lost, and one attempt without faults delivers |
| TelegramDelivery.AnswerFailure | apps/channel-broker/src/broker.ts:1373-1388 | a turn that throws after previews: once delivered, the chat reads the failure message alone exactly when no preview call took effect |
| TelegramDelivery.LostPreviewIsRepeated | apps/channel-broker/src/broker.ts:849-859 | a lost acknowledgement: the chat shows the whole text and the whole text is still to be delivered |
| TelegramDelivery.StalePreviewStays | apps/channel-broker/src/broker.ts:838-843 | without any lost acknowledgement a preview that the final text does not go on from stays beside the whole reply |
| TelegramDelivery.CountedIsShownIff | apps/channel-broker/src/broker.ts:838-859 | what is counted as shown is what the chat reads exactly under that condition |
| UsageRegistry.Registry.PruneUsageStates | integrations/litellm/lemmacomputer_policy_callback.py:375-390 | in place: expired entries go, empty calls go, then the calls with the oldest last entry until 4,096 are left |
| UsageRegistry.Registry.RememberUsageState | integrations/litellm/lemmacomputer_policy_callback.py:393-412 | one entry replaces its admission and is appended, between two prunings at the same clock reading |
| UsageRegistry.Registry.RegisteredUsageState | integrations/litellm/lemmacomputer_policy_callback.py:415-431 | prunes and answers from what is left |
| UsageRegistry.Registry.ForgetUsageState | integrations/litellm/lemmacomputer_policy_callback.py:434-447 | sifts one admission out of every call |
| UsageRegistry.RunsAreBounded | integrations/litellm/lemmacomputer_policy_callback.py:375-447 | over every run, whatever the clock reads: at most 4,096 calls, each with 1 to 8 entries under distinct admissions, a subsequence of the log of everything remembered for it, all live at the clock's last reading |
| UsageRegistry.SiftIsExact | integrations/litellm/lemmacomputer_policy_callback.py:434-447 | forgetting removes an admission everywhere and nothing else |
| UsageMemory.RememberTells | integrations/litellm/lemmacomputer_policy_callback.py:393-412 | after remembering, the entry's call keeps its place and holds its newest live entries of other admissions, eight with the new one at most, or is a new last call for which the oldest gives way if there were 4,096 |
| UsageMemory.EvictedIs | integrations/litellm/lemmacomputer_policy_callback.py:383-390 | pruning leaves, in order, the 4,096 calls whose last entries are the newest, the earlier of two equals going first |
| UsageMemory.SiftOne | integrations/litellm/lemmacomputer_policy_callback.py:375-382 | sifting a call leaves its entries that pass, and no call for none |
| UsageRegistry.LookupIsNewest | integrations/litellm/lemmacomputer_policy_callback.py:421-431 | a lookup answers with the newest entry for the deployment, else the newest for the call, and with none exactly when the call has none |
| UsageRegistry.RememberedUnlessCrowded | integrations/litellm/lemmacomputer_policy_callback.py:398-412 | the entry just remembered is evicted exactly when its call is new, the registry is full and every other call has a later reading |
| UsageRegistry.CrowdLosesNewcomer | integrations/litellm/lemmacomputer_policy_callback.py:398-404 | a run of 4,096 remembered calls and one caller that waited for the lock, whose new entry is lost |
| UsageLineage.UsageLedger.Admit | packages/workspace-store/src/usage-ledger.ts:250-262 | an attempt is admitted once; the same parent and the same other facts are a duplicate, any difference a conflict, and a reply may be lost after the admission took effect |
| UsageLineage.UsageCallback.VerifiedUsageReentry | integrations/litellm/lemmacomputer_policy_callback.py:577-625 | re-enters by the metadata's state and chain or by the request's context for a conversion, exactly under their conditions |
| UsageLineage.UsageCallback.RequestUsageContextAndStripReserved | integrations/litellm/lemmacomputer_policy_callback.py:521-570 | reads the parent out of the chain and leaves no callback-owned metadata behind |
| UsageLineage.UsageCallback.PreCallDeploymentHook | integrations/litellm/lemmacomputer_policy_callback.py:1332-1438 | one hook entry is one step of the lineage machine, including the failures before re-entry and before the lineage is read, which keep the chain |
| UsageSteps.GoesOnIff | integrations/litellm/lemmacomputer_policy_callback.py:1332-1438 | a request goes on exactly if it holds its state on the attempt's provider, was converted on its last deployment, or is granted an admission |
| UsageSteps.GoesOnHolding | integrations/litellm/lemmacomputer_policy_callback.py:577-625 | a request that goes on holds an admission of the ledger with a state for it on the attempt's provider, its own attempt's unless it was converted |
| UsageSteps.HeldUpHolding | integrations/litellm/lemmacomputer_policy_callback.py:521-570 | a request that is held up keeps what it brought if a check stopped it and nothing of it once the lineage was read; the context changes with an admission alone |
| UsageSteps.LedgerGains | packages/workspace-store/src/usage-ledger.ts:250-262 | the ledger gains exactly the admission asked for, for a new attempt that came past the checks and was not refused, and nothing else |
| UsageLineage.LineageIsAcyclic | integrations/litellm/lemmacomputer_policy_callback.py:539-555 | over every run, whatever is carried, converted or refused, parents are earlier admissions and no attempt is admitted twice |
| UsageLineage.SameAttemptReenters | integrations/litellm/lemmacomputer_policy_callback.py:540-549 | re-entering the attempt that holds the chain makes no second admission and keeps its original parent, with or without its state |
| UsageLineage.ConversionReenters | integrations/litellm/lemmacomputer_policy_callback.py:603-624 | a converted request on the deployment of the last admission reuses an admission |
| UsageLineage.NewAttemptDescends | integrations/litellm/lemmacomputer_policy_callback.py:550-555 | a new attempt descends from the admission of the attempt before it, or is a root exactly when no chain came along |
| UsageLineage.SteadyRunsAreOnePath | integrations/litellm/lemmacomputer_policy_callback.py:884-952 | a run that carries its chain succeeds throughout exactly when every attempt is new and acknowledged or resumes the attempt before it, and its lineage is then one path from one root |
| UsageLineage.AdvancingRunsAreOnePath | integrations/litellm/lemmacomputer_policy_callback.py:884-910 | retries and fallbacks that only move forward are one path |
| UsageRoots.TwoRootsIff | integrations/litellm/lemmacomputer_policy_callback.py:1332-1438 | over every run of hooks a second root exists exactly when, after some admission, another attempt is admitted that brings no chain: not carried, or no hook has succeeded since one that stripped it |
| UsageRoots.ChainIsLostIff | integrations/litellm/lemmacomputer_policy_callback.py:521-570 | the outcomes of the hooks tell whether a chain is left |
| UsageRoots.FoundsIff | packages/workspace-store/src/usage-ledger.ts:250-262 | without conversions the hooks admitted as new are the first of each attempt to be let through and accepted |
| UsageRoots.OneRootIff | integrations/litellm/lemmacomputer_policy_callback.py:539-555 | short of a second root every admission goes back to the first |
| UsageRoots.FailureSplitsTheLineage | integrations/litellm/lemmacomputer_policy_callback.py:912-934 | after any run without a failure, an attempt that returns or is not acknowledged fails, and the next new attempt is a second root |
| UsageRoots.ReturningSplitsTheLineage | integrations/litellm/lemmacomputer_policy_callback.py:912-934 | a concrete run at constant depth and ordinal with two roots |
| UsageRoots.RefusalSplitsTheLineage | integrations/litellm/lemmacomputer_policy_callback.py:1374-1401 | a concrete run with one refusal and two roots |
| InstanceKeySearch.CallerSuppliedAgentInstanceId | apps/control-api/src/agent-process-lifecycle.ts:150-169 | terminates on every finite, possibly cyclic heap and answers true exactly when some reachable object other than an array has a key that normalises to the instance key |
| InstanceKeySearch.InstanceKeyIff | apps/control-api/src/agent-process-lifecycle.ts:148 | a key counts exactly if it spells agentinstanceid, in any case and with any dashes and underscores in between |
| InstanceKeySearch.ClosedSetHoldsReachable | apps/control-api/src/agent-process-lifecycle.ts:153-158 | a set closed under references holds everything reachable from its members |
| InstanceKeySearch.Expanded | apps/control-api/src/agent-process-lifecycle.ts:155-167 | replacing a visited object by its children keeps the search complete |
| ToolNaming.UniqueName | docker/workspace/lemmacomputer-connectors-stdio.py:1023-1027 | the suffix loop ends and finds the first free candidate |
| ToolNaming.CandidatesDiffer | docker/workspace/lemmacomputer-connectors-stdio.py:1025-1027 | the candidate names are pairwise distinct, which is why the loop ends |
| ToolNaming.ConnectorTools.DiscoverTools | docker/workspace/lemmacomputer-connectors-stdio.py:990-1063 | the result names exactly the offered tools in order and then the wait tool, all names distinct, and the tool map agrees with it entry by entry; a malformed response changes nothing |
| ToolNaming.NamingIsUnique | docker/workspace/lemmacomputer-connectors-stdio.py:1003-1029 | the offered tools determine every name |
| ToolLabels.LabelIs | docker/workspace/lemmacomputer-connectors-stdio.py:1016-1021 | a label is the beginning, of at most 32 characters, of the server's cleaned name without the product's prefix, Microsoft 365 written out and nothing left a connector |
| ToolLabels.LabelIsPlain | docker/workspace/lemmacomputer-connectors-stdio.py:1017-1022 | a label has 1 to 32 characters, all of them lower-case letters, digits, underscores and hyphens |
| ToolLabels.ReplacedRun | docker/workspace/lemmacomputer-connectors-stdio.py:1017 | a run of other characters becomes one underscore, whatever stands around it |
| ToolLabels.OfferedOne | docker/workspace/lemmacomputer-connectors-stdio.py:994-1015 | a tool is offered exactly if it is well formed, opens no upload and, for Microsoft 365, is qualified |
| ToolLabels.NameReads | docker/workspace/lemmacomputer-connectors-stdio.py:1022-1029 | a tool is named by label and upstream name, or by the first number from two on that no tool before it has |
| ConnectorReview.Connector.PrepareSave | apps/control-api/src/connections.ts:1360-1396 | a save goes on exactly when every tool is the one that was reviewed and is decided; without a discovery or with any changed tool it says so |
| ConnectorReview.Connector.ApplyToolPolicyChange | packages/workspace-store/src/connector-registry.ts:1626-1683 | accepted exactly on the version the review saw, and then the record is that review |
| ConnectorReview.RunSteps | apps/control-api/src/connections.ts:1360-1415 | over every interleaving of provider changes, access changes and two-step saves the record holds the last accepted review, whose decisions cover exactly the tools it reviewed; each save begins on exactly the tools it reviewed and is accepted on exactly the version it reviewed |
| ConnectorReview.HostedIffReviewed | apps/control-api/src/connections.ts:1417-1443 | a hosted call gets a decision other than deny exactly when the last accepted review made it on the definition that is live now |
| ConnectorReview.ProjectionIsReviewed | apps/control-api/src/connections.ts:1582-1596 | the projected tools and decisions are exactly those a hosted call would get |
| ConnectorReview.OneAcceptedPerVersion | packages/workspace-store/src/connector-registry.ts:1636-1656 | two reviews of the same version are never both accepted |
| ConnectorReview.ChangedDefinitionBlocks | apps/control-api/src/connections.ts:168-190 | a changed definition blocks its tool until it is reviewed or changed back |
| PolicyApplication.ResolveConnectorPolicyApplication | apps/control-api/src/connector-policy-administration.ts:142-201 | the view counts each assigned version once with its members, newest first and equal numbers by ascending hash, and conserves them: versions plus unassigned and current plus remediation are the active members |
| PolicyApplication.OrderDoesNotMatter | apps/control-api/src/connector-policy-administration.ts:166-181 | the view depends on the members as a multiset only |
| PolicyApplication.CurrentIff | apps/control-api/src/connector-policy-administration.ts:177-190 | the state is current exactly when nothing conflicts and every active member has the current version |
| PolicyApplication.ViewTells | apps/control-api/src/connector-policy-administration.ts:142-201 | what a view tells of its members, whatever their order: the count of each version and of none, the newest version, and a condition on the members for every state |
| PolicyApplication.UnitOrder | apps/control-api/src/connector-policy-administration.ts:174-176 | characters are ordered as their UTF-16 units are |
| PolicyApplication.Group | apps/control-api/src/connector-policy-administration.ts:166-173 | the grouping loop tallies every assigned member exactly once |
| PolicyApplication.NeverWeaker | apps/control-api/src/connector-policy-administration.ts:258-283 | the effective decision is at least as strict as either source and, short of a denial, one of them |
| PolicyApplication.EffectiveIff | apps/control-api/src/connector-policy-administration.ts:233-283 | allow takes an enabled and permitted connector, a trusted definition and an allow from every policy that speaks; deny any of the opposites |
| PolicyApplication.ReviewIff | apps/control-api/src/connector-policy-administration.ts:264-274 | the condition for each review state |
| PolicyApplication.EffectiveIsMonotone | apps/control-api/src/connector-policy-administration.ts:205-207 | tightening either policy never loosens the effective decision |
| PolicyApplication.ResolveTools | apps/control-api/src/connector-policy-administration.ts:258-301 | every tool that either policy, a review or the provider mentions is listed once in order, no other tool has any effect, and the three counts are those of the effective decisions and sum to the number of tools |

## Left out

- HTTP, sockets, timers, subprocesses, Docker, vendor SDKs and the Telegram Bot API: only whether a call succeeds and what it changes.
- JSON, UTF-8 and base64 encoding: the wire codec is any injective pair of functions; its frames are measured in characters.
- Limits of the message schema, such as the number of parts of a snapshot; a snapshot that its schema refuses is a failing call.
- Timestamps, display names, model settings and sanitised payload text; activity drafts are compared by kind and state.
- Cancellation: one per turn. Shutdown cancels like an employee does, apart from the text of its message.
- A text part reused under another identifier by a vendor: the adapter uses one text identifier per turn; the accumulator and the client are proved for any mixture.
- TurnPipeline.RelayTurn: compares the persisted message with the log by its state, text and files; `PartIsShown` and `FinishedMessage` speak of its other parts.
- ChatInterface.ClientSeesMessage: compares texts, approvals and file references for distinct artifact identifiers, and assumes identifiers of different kinds of part to differ; of the client's progress parts `EventIsTold` says only that they are sent.
- TurnExecutor.TurnExecution.Execute: failing calls leave no effect that a later call could observe; what a store keeps of a call that looked failed is not part of it.
- ActivityLog.Subscribe: heartbeats and the interval between polls are not modelled; a subscription is a finite number of polls.
- Edits of an environment file by an operator while a deployment runs: the checks that would notice them are checks that may raise.
- DemoUpdate.Deployment.Update: the classification and comparison of bundles before anything is staged are one condition; only routine plans are applied. A copy that breaks off inside a file counts as one that has not made that file; nothing reads it, since its directory is refused.
- ArtifactIngestion.SweeperSparesCommitted: a commit is one atomic step against the sweeper's check of its row, while the source's transaction could straddle the row's expiry.
- EventStream: the schema's patterns for what the adapter draws or derives itself in that form, and the model does not hold or holds as an opaque value: timestamps, operation, artifact and revision identifiers, digests, media types and byte lengths. Whether a link parses is given with it.
- ArtifactIngestion: an upload's identifiers are fresh; the ordering and the size limit of the sweep's query are not modelled, so a batch whose deletions keep failing may hide later rows.
- DurableChatService.persistUserMessage and the binding of artifacts to messages: sequences of ingests and calls without a protocol of their own.
- TelegramPolling: what Telegram forgets once a follow-up poll has confirmed it. At-most-once answering is proved, eventual answering is not: an update confirmed by the second fetch and not reserved before a crash is never answered.
- TelegramDelivery: chunks count characters, as the source does; 4,000 supplementary characters are 8,000 UTF-16 units.
- UsageLineage: provider probes, which are not billed. The several metadata dictionaries that the source reads and strips are one.
- UsageLineage.UsageLedger.Admit: the facts of an admission other than its attempt and parent are one value; what the task binding, the routing decision and the budget bounds are made of is not modelled.
- UsageRegistry: states are represented by their admission, deployment and times.
- ToolNaming: descriptions, schemas and contract versions of the listed tools are data beside the name.
- ConnectorReview: projections are computed from the record, not from the cache that may hold an older one for up to five minutes; tool names hold no NUL character, which the source uses as a separator.
- PolicyApplication: the audit sources of a decision, display names and the runtime summary are not modelled.
- Redaction and URL sanitising, connector catalogues, authentication, budgets and policy signing.
