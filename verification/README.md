# Verification of Chitragupt

A Dafny model of the three parts of Chitragupt whose behaviour is hard to see from any one
function, with proofs about all their inputs, runs and interleavings. `dafny verify
dfyconfig.toml` checks everything.

**Token streaming of one turn** (`TokenStream`, `StreamingTurn`, `Abandonment`, `PipelineExecutor`). A graph
task puts the model's tokens on a bounded queue; a generator drains the queue up to a `None`
sentinel and then awaits the graph task. The joint state at the suspension points is a value, `Enabled`
and `Step` are the atomic steps between two of them, and a run is any list of enabled actions:
every theorem covers every interleaving, token list, failure point and queue size (0 or a negative
size means unbounded, as in asyncio). The same steps are also methods of a class whose queue is
updated in place, driven by an arbitrary scheduler. Above it, any number of turns share one
executor and its `_last_result` field; tasks switch only at an `await`. `Abandonment` follows the graph
task of a turn whose caller went away.

**Document ingestion** (`DocumentProcessor`, `Chunker`, `SparseVector`, `Embedder`, `Ingestion`).
The sectioning fold over paragraphs, the overlapping window loop with its drop rule, the stepped
batching loop and the counting loop are methods with loops, each proved equal to a function, and
the round trips, loss bounds and closed forms are proved about those functions, with references
that are independent of the loops (`Place`: where each paragraph belongs; `WindowCount`: a division;
`multiset`: counts).

**Session state engine** (`Phase`, `AcceptanceCriteria`, `AcEvaluators`, `Gates`, `Session`,
`Transition`, `StateEngine`, and the theorems in `ReadyConditions`, `EngineAnswers`, `SessionUpdates`,
`Readiness`, `SessionRuns`, `SignOff`), with the Python question picker that mirrors its criteria (`GapAnalyzer`) and the spend
guard (`BudgetTracker`). The service is a class holding a map from ids to session objects that its
methods change in place; each method is proved to do what the pure `Handle` does, and `EngineAnswers`
says what that is in terms of the stored session's fields. Runs are lists of
requests and of `Edit` steps. No request sets the artifacts, the signature, the documents or the
waivers, so `Edit` stands for whatever else does; the runs without `Edit` are treated separately.

Where several parts need it, text is split and lower-cased by `Text`; sequence facts are in
`Sequences`.

## Where code and comment disagree

The model follows the code.

- `executor.py:216-217` says the graph task is done once the drain loop exits. For no queue size and
  no script is that so on all schedules: the guidance node closes the stream before the graph
  returns (`DrainMayExitBeforeGraphIsDone`; `GraphDoneAtExitIff` says when it is). The `await` after
  the loop makes this harmless.
- `servicer.py:80-82` promises a completion event at the end. None is sent when the drain loop's
  ceiling expires (`CompletionSentIff`).
- `orchestration.yaml:119` says chunks below the minimum are merged with their neighbours. They are
  dropped. `PageRoundTripIff` says exactly when nothing is lost, `LossBound` how much can be.
- `transition.rs:65` says a revisit re-enters a prior phase. The code does not compare the phases: it
  lets a revisit go forward to any phase but SignedOff (`ForwardRevisitIff`), past criteria that were
  never met (`OneApprovalCanSuffice`). The rule that SignedOff cannot be revisited is read as one about
  the target, which the code enforces; a revisit can leave SignedOff, and then it is recorded
  (`SignedOffLeftOnlyByRevisit`).
- `gap_analyzer.py:10-11` says a terminal gap means that all criteria of the phase are met. That holds
  exactly for the four phases with a table, and only when the session comes from the serialised state
  (`TerminalMeansReadyIff`): the message fields carry display names, which are no table keys, so under
  them, and in the other three phases, even an empty session looks complete (`TerminalTooEarly`).
- `from_checks` is monotone, but readiness is not: a new requirement entity names no actor and
  falsifies AC-S3-03 (`ReadinessStableIff`, `ReadinessCanBeLost`).

## Model

| member | source | states |
|---|---|---|
| `TokenStream.StepKeepsInv` | services/ai-orchestration/src/ai_orchestration/executor.py:228-291 | every atomic step of either task keeps the protocol invariant: the queue is exactly the put-but-not-received tokens followed by at most two sentinels, as many as the producer's position allows |
| `TokenStream.RunKeepsInv` | services/ai-orchestration/src/ai_orchestration/executor.py:187-291 | the invariant survives any finite interleaving from any state that satisfies it |
| `TokenStream.ExactDelivery` | services/ai-orchestration/src/ai_orchestration/executor.py:187-291 | on every run the tokens yielded are a prefix of those put, and those of the model's; when draining has stopped none that was put is missing; a turn that ends is aborted exactly when the model call or the graph failed and then reports no tokens; any other delivered exactly `guidance_tokens`, all of the model's tokens; nothing but one spare sentinel stays queued |
| `TokenStream.TurnResultIff` | services/ai-orchestration/src/ai_orchestration/executor.py:235-263 | on every run the whole result of a turn that ends, from its steps: aborted exactly on a failure of the model call or the graph; tokens all or none; after a graph failure the default intent, the one error and no cost; otherwise the nodes' errors, cost and intent (a default for none), with the guidance node's own error exactly when that node failed |
| `TokenStream.QueueStaysBounded` | services/ai-orchestration/src/ai_orchestration/executor.py:187-189 | on every schedule the queue never holds more than its maximum size |
| `TokenStream.OutcomeOfRun` | services/ai-orchestration/src/ai_orchestration/executor.py:206-222 | a run that is over was cancelled exactly when the ceiling expired, and otherwise aborted exactly when the model call or the graph failed |
| `TokenStream.TokensConserved` | services/ai-orchestration/src/ai_orchestration/executor.py:265-291 | at every moment received tokens followed by queued tokens are the tokens put, in order: none lost, doubled or swapped in flight |
| `TokenStream.SwallowedQueueFullIsHarmless` | services/ai-orchestration/src/ai_orchestration/executor.py:244-252 | whenever the `finally` block finds the queue full and swallows `QueueFull`, a sentinel is already in the queue |
| `TokenStream.GraphEndLeavesSentinel` | services/ai-orchestration/src/ai_orchestration/executor.py:228-252 | however the graph task ends, by returning, failing or being cancelled, it leaves a sentinel at the end of the queue, a new one exactly if there was room |
| `TokenStream.NoBlockingPutAfterSentinel` | services/ai-orchestration/src/ai_orchestration/agents/guidance_generator.py:51-105 | once a sentinel is queued or has been received the producer is past its last blocking put |
| `TokenStream.NeverStuck` | services/ai-orchestration/src/ai_orchestration/executor.py:187-291 | no deadlock: in every reachable unfinished state, for every queue size, some step other than the timeout is enabled |
| `TokenStream.StepLowersMeasure` | services/ai-orchestration/src/ai_orchestration/executor.py:228-291 | each step lowers a non-negative measure of the work left, so no schedule can go on forever |
| `TokenStream.AlwaysEnds` | services/ai-orchestration/src/ai_orchestration/executor.py:187-291 | every schedule, fair or not, is over after at most 4 steps per token and 10 more |
| `TokenStream.DrainMayExitBeforeGraphIsDone` | services/ai-orchestration/src/ai_orchestration/executor.py:216-218 | for no queue size and no script is the graph task guaranteed to be done when the drain loop exits, against the comment there: some schedule exits while it still runs |
| `TokenStream.GraphDoneAtExitIff` | services/ai-orchestration/src/ai_orchestration/executor.py:216-252 | on every run, once a sentinel has ended the drain loop and until the `await` after it is over, the graph task is done exactly when its own last step, the graph's return or its failure, has been taken |
| `TokenStream.ExitFindsGraphDoneIff` | services/ai-orchestration/src/ai_orchestration/executor.py:288-289 | from any state of the protocol with a sentinel at the head of the queue: receiving it finds the graph task done exactly when it had finished already |
| `StreamingTurns.StreamingTurn.CloseQueue` | services/ai-orchestration/src/ai_orchestration/executor.py:244-252 | the non-blocking put of the sentinel appends it unless the queue is full |
| `StreamingTurns.StreamingTurn.ProducerStep` | services/ai-orchestration/src/ai_orchestration/agents/guidance_generator.py:51-105 | in place, each step of the graph task changes queue, position and history as the protocol's step relation says |
| `StreamingTurns.StreamingTurn.ConsumerStep` | services/ai-orchestration/src/ai_orchestration/executor.py:265-291 | in place, each step of the drain loop and of the final `await` does what the step relation says |
| `StreamingTurns.StreamingTurn.RunToEnd` | services/ai-orchestration/src/ai_orchestration/executor.py:206-222 | whatever enabled steps a scheduler picks, the expiry of the ceiling included, the turn ends, having gone through a run of the protocol: cancelled exactly by the ceiling, otherwise with its own graph task's result, aborted exactly when model call or graph failed in that run, and complete otherwise; what was yielded is a prefix of the tokens |
| `PipelineExecutors.MoveKeepsInv` | services/ai-orchestration/src/ai_orchestration/executor.py:218-222 | with switches only at an `await`, the shared result field holds the running call's own result from its write to its report |
| `PipelineExecutors.TurnIsItsOwnRun` | services/ai-orchestration/src/ai_orchestration/executor.py:206-222 | on every schedule of any number of turns, preemptive or not, each turn's state is the one its own steps alone lead to: turns do not disturb each other |
| `PipelineExecutors.ResultsDoNotCross` | services/ai-orchestration/src/ai_orchestration/grpc/servicer.py:93-104 | with any number of concurrent turns on one executor, a completion event carries the result of the call's own turn, aborted exactly when that turn's own model call or graph failed, and otherwise with the token list that call streamed, all of its model's tokens |
| `PipelineExecutors.EveryCallFinishes` | services/ai-orchestration/src/ai_orchestration/grpc/servicer.py:72-104 | the executor never stalls while a call is unfinished, and every schedule is bounded by the sum of 4n + 13 over the turns |
| `PipelineExecutors.PreemptionWouldCrossResults` | services/ai-orchestration/src/ai_orchestration/executor.py:218-222 | were a switch possible between the write of the shared field and its read, two turns would cross: a concrete schedule in which one reports the other's result |
| `PipelineExecutors.CompletionSentIff` | services/ai-orchestration/src/ai_orchestration/grpc/servicer.py:78-104 | on every cooperative schedule a finished call has sent its completion event exactly when the ceiling of its own drain loop never expired; the docstring promises one always |
| `PipelineExecutors.PipelineExecutor.Run` | services/ai-orchestration/src/ai_orchestration/executor.py:171-222 | for the steps the turn went through: CancelledError exactly if the ceiling expired, the field left as it was; otherwise the field holds this run's result, PipelineAbortedError is raised exactly if model call or graph failed, and else all tokens were yielded |
| `PipelineExecutors.PipelineExecutor.RunPipeline` | services/ai-orchestration/src/ai_orchestration/grpc/servicer.py:93-104 | a completion is missing exactly if the ceiling expired; otherwise it is the result of this very run, aborted exactly if model call or graph failed, and if not listing the tokens sent, all of the model's |
| `Abandonment.FinishesAloneIff` | services/ai-orchestration/src/ai_orchestration/executor.py:206-222 | left alone in any state of the protocol in which it was not cancelled, the graph task surely ends exactly when the puts it still has to make fit into the queue; otherwise some schedule leaves it waiting for room forever |
| `Abandonment.AbandonedMidStreamFinishesIff` | services/ai-orchestration/src/ai_orchestration/executor.py:213-214 | on every run: if the caller stops at a `yield` while the model streams, the graph task surely ends exactly when the queue is unbounded or has room for all tokens not yet received and the sentinel |
| `Abandonment.AbandonedAtCloseFinishesIff` | services/ai-orchestration/src/ai_orchestration/agents/guidance_generator.py:96-102 | on every run: abandoned once the model call is over, the graph task surely ends unless it is still waiting to put the sentinel on a full queue |
| `DocumentProcessors.DocxExtractor.Flush` | services/ai-orchestration/src/ai_orchestration/ingestion/document_processor.py:68-75 | a non-empty buffer becomes the next page, numbered by the pages before it and titled by the current section; then pages are all sections seen so far |
| `DocumentProcessors.DocxExtractor.Feed` | services/ai-orchestration/src/ai_orchestration/ingestion/document_processor.py:77-82 | one paragraph keeps the correspondence between pages, buffer and title on one side and the sections of the paragraphs read on the other |
| `DocumentProcessors.ExtractDocx` | services/ai-orchestration/src/ai_orchestration/ingestion/document_processor.py:63-85 | the loop returns the pages of the sections, or one empty page when there is no body text |
| `DocumentProcessors.PagesAreTheSections` | services/ai-orchestration/src/ai_orchestration/ingestion/document_processor.py:63-85 | every non-blank body paragraph lands in exactly one page, in order; a page holds exactly the paragraphs between two headings that follow each other; pages are numbered from 1 and carry the latest non-blank heading before them |
| `DocumentProcessors.PlacedSomewhere` | services/ai-orchestration/src/ai_orchestration/ingestion/document_processor.py:77-82 | every paragraph that reaches a page stands at some position of the document, is no heading and not blank, belongs to the section counted by the headings before that position, and carries the stripped text of the last non-blank heading before it, or none |
| `Text.SplitOfJoin` | services/ai-orchestration/src/ai_orchestration/ingestion/document_processor.py:71 | joining paragraphs with a separator none of them holds loses nothing: splitting gives them back |
| `Text.StripCutsBlanks` | services/ai-orchestration/src/ai_orchestration/ingestion/document_processor.py:80-81 | stripping cuts exactly the blanks at both ends |
| `Chunkers.LoopEndsIff` | services/ai-orchestration/src/ai_orchestration/ingestion/chunker.py:54-75 | the window loop over a page of n tokens is left if and only if the page fits one window or the overlap is below the size; the constructor does not check this |
| `Chunkers.Chunker.ChunkTokens` | services/ai-orchestration/src/ai_orchestration/ingestion/chunker.py:54-75 | the in-place inner loop appends, after the chunks before it, exactly the windows the drop rule keeps, for any integers size, overlap and minimum for which it ends |
| `Chunkers.Chunker.Chunk` | services/ai-orchestration/src/ai_orchestration/ingestion/chunker.py:45-78 | the outer loop skips empty pages and chunks the others in order with one running index |
| `Chunkers.ChunksShape` | services/ai-orchestration/src/ai_orchestration/ingestion/chunker.py:49-75 | every chunk comes from one page: its text is a stretch of consecutive words of the page, one blank apart, it has that page's title and number, its token count is its number of words, its index its position, and only the very first may be below the minimum |
| `Chunkers.WindowStarts` | services/ai-orchestration/src/ai_orchestration/ingestion/chunker.py:54-75 | with 0 <= overlap < size window k starts at k * (size - overlap), and there are exactly 1 or 1 + ceil((n - size) / (size - overlap)) windows |
| `Chunkers.OnlyLastWindowEnds` | services/ai-orchestration/src/ai_orchestration/ingestion/chunker.py:56-75 | all windows start inside the page and only the last one reaches its end |
| `Chunkers.LastLengthClosedForm` | services/ai-orchestration/src/ai_orchestration/ingestion/chunker.py:56-75 | the last window's length in closed form from n and the window count; it exceeds the overlap when it is not the first window |
| `Chunkers.PageRecovered` | services/ai-orchestration/src/ai_orchestration/ingestion/chunker.py:45-78 | removing the overlap from all chunks of a page but the first and joining gives back a prefix of the page's tokens of a length known in advance from n and the configuration, and no chunk at all exactly when that length is 0 |
| `Chunkers.PageRoundTripIff` | services/ai-orchestration/src/ai_orchestration/ingestion/chunker.py:45-78 | the page's token list comes back exactly if and only if the last window reaches the minimum or the page is one window and the first chunk overall |
| `Chunkers.KeptOrDroppedWhole` | services/ai-orchestration/src/ai_orchestration/ingestion/chunker.py:45-78 | with minimum <= overlap + 1 a page is either given back exactly or dropped as a whole, the latter exactly when it has fewer than the minimum and a chunk already exists |
| `Chunkers.SmallestLossyPage` | services/ai-orchestration/src/ai_orchestration/ingestion/chunker.py:61-75 | with overlap + 1 < minimum <= size a page of size + 1 tokens loses its last token: the side condition is tight |
| `Chunkers.LossBound` | services/ai-orchestration/src/ai_orchestration/ingestion/chunker.py:55-75 | for any minimum <= size a page of several windows loses at most max(0, minimum - 1 - overlap) tokens, all at its tail; a one-window page only as a whole; the first non-empty page always yields a chunk |
| `Chunkers.PageChunksClosedForm` | services/ai-orchestration/src/ai_orchestration/ingestion/chunker.py:54-75 | with nothing dropped, which is the condition of the round trip and no stronger, there is one chunk a window and the token counts add up to n plus one overlap for each chunk after the first |
| `Chunkers.ClosedFormIff` | services/ai-orchestration/src/ai_orchestration/ingestion/chunker.py:54-75 | there is one chunk a window exactly when nothing is dropped |
| `Chunkers.PageChunkTokens` | services/ai-orchestration/src/ai_orchestration/ingestion/chunker.py:56-66 | with nothing dropped (the same condition) the words of chunk k are the page's tokens from k * (size - overlap) to the window's end |
| `SparseVectors.Sparse` | services/ai-orchestration/src/ai_orchestration/ingestion/pipeline.py:56-67 | the counting loop and the division compute the vector of counts over the total |
| `SparseVectors.WeightIsShare` | services/ai-orchestration/src/ai_orchestration/ingestion/pipeline.py:56-67 | a term is present exactly when some token lower-cases to it, with weight its multiset count over the number of tokens |
| `SparseVectors.WeightsSumToOne` | services/ai-orchestration/src/ai_orchestration/ingestion/pipeline.py:66-67 | the weights of a non-empty token list add up to exactly 1 |
| `Text.LowerMapsAlphabet` | services/ai-orchestration/src/ai_orchestration/ingestion/pipeline.py:64 | each capital becomes the small letter at its place in the alphabet |
| `Text.LowerKeepsOthers` | services/ai-orchestration/src/ai_orchestration/ingestion/pipeline.py:64 | lower-casing changes no character but the capitals |
| `SparseVectors.CountsAdd` | services/ai-orchestration/src/ai_orchestration/ingestion/pipeline.py:62-65 | term counts add under concatenation of token lists |
| `SparseVectors.OrderIrrelevant` | services/ai-orchestration/src/ai_orchestration/ingestion/pipeline.py:62-65 | token lists that are permutations of each other have the same vector |
| `SparseVectors.QueryFormAgrees` | services/ai-orchestration/src/ai_orchestration/agents/rag_retrieval.py:72 | the query side, which splits the lower-cased text, and the document side, which lower-cases the split text, build the same vector |
| `Embedders.Embedder.EmbedTexts` | services/ai-orchestration/src/ai_orchestration/ingestion/embedder.py:36-50 | the stepped loop sends exactly the batches and returns their answers joined; batch size 0 fails; a negative one sends nothing and returns nothing |
| `Embedders.BatchesPartition` | services/ai-orchestration/src/ai_orchestration/ingestion/embedder.py:44-47 | for a positive size the batches join to the texts, none is empty, all but the last have the full size, and there are ceil(n / size) of them |
| `Embedders.AnswersPointwise` | services/ai-orchestration/src/ai_orchestration/ingestion/embedder.py:44-47 | for a pointwise client the joined answers are as many as the texts sent, answer i being the embedding of text i |
| `Embedders.BatchingTransparentIff` | services/ai-orchestration/src/ai_orchestration/ingestion/embedder.py:36-50 | result i is the embedding of text i, for all texts, exactly when the batch size is positive or there is no text |
| `Ingestion.ReadBackSurvivors` | services/ai-orchestration/src/ai_orchestration/ingestion/chunker.py:49-75 | over a whole document and for any minimum, grouping chunks by page number and undoing the overlap gives, page after page, exactly the prefix of each page that survives |
| `Ingestion.DocxToChunksReadBack` | services/ai-orchestration/src/ai_orchestration/ingestion/document_processor.py:63-85 | from paragraphs to chunks, for any minimum: what can be read back is, section after section, exactly the prefix of its words that survives |
| `Ingestion.DocxToChunksLosesOnlyShortSections` | services/ai-orchestration/src/ai_orchestration/ingestion/document_processor.py:63-85 | with minimum <= overlap + 1: what can be read back is the words of all sections, whole, but those that are below the minimum and are not the first |
| `Ingestion.DocumentLossBound` | services/ai-orchestration/src/ai_orchestration/ingestion/chunker.py:55-75 | for any minimum <= size, of all body words of a document at most this is missing: max(0, minimum - 1 - overlap) for each section longer than a window, and the words of each later section below the minimum |
| `Ingestion.SectionWordsAreBodyWords` | services/ai-orchestration/src/ai_orchestration/ingestion/document_processor.py:71-82 | the words of the sections, joined, are the words of all body paragraphs in order |
| `Ingestion.ScrubChunks` | services/ai-orchestration/src/ai_orchestration/ingestion/pipeline.py:148-150 | the in-place loop replaces every chunk's text by the scrubbed one and nothing else of it |
| `Ingestion.BuildRecords` | services/ai-orchestration/src/ai_orchestration/ingestion/pipeline.py:159-174 | zipping makes one record per chunk that has an answer, in order, with the chunk's text, counts and place and the vector of its words |
| `Ingestion.Ingest` | services/ai-orchestration/src/ai_orchestration/ingestion/pipeline.py:141-174 | the client is sent, position by position, the scrubbed texts of the chunks; record i stores the scrubbed text of chunk i, its answer, the vector of the scrubbed words, and place and counts of the chunk as cut; with a pointwise client and a positive batch size every chunk has its record, with the embedding of its scrubbed text; the token total is that of the chunks as cut; no chunk gives no record and 0, batch size 0 fails |
| `Ingestion.EveryRecordEmbedded` | services/ai-orchestration/src/ai_orchestration/ingestion/pipeline.py:153-174 | if the batches hold the scrubbed texts position by position, a pointwise client answers every chunk with the embedding of its scrubbed text |
| `Ingestion.ScrubKeepsTokens` | services/ai-orchestration/src/ai_orchestration/ingestion/pipeline.py:148-156 | whatever scrubbing does to the texts, the token total is the one before it |
| `Ingestion.NoRecordLostIff` | services/ai-orchestration/src/ai_orchestration/ingestion/pipeline.py:153-174 | for a pointwise client no chunk loses its record exactly when the batch size is positive |
| `AcceptanceCriteria.EvaluateChecks` | services/state-machine/src/ac/result.rs:41-88 | the pass that fills criteria and gaps, and the readiness test, compute the status of each check, the unmet ones, and readiness |
| `AcceptanceCriteria.StatusIff` | services/state-machine/src/ac/result.rs:49-75 | criteria keep the order and ids of the checks; met exactly by field or listing, waived exactly when listed so and not met |
| `AcceptanceCriteria.ReadyIff` | services/state-machine/src/ac/result.rs:79-81 | ready exactly when every criterion not marked "-U" has its field check true or its id in one of the lists |
| `AcceptanceCriteria.GapsAreTheUnmet` | services/state-machine/src/ac/result.rs:61-69 | gap k is the k-th unmet criterion and there are `unmet_count` of them, at least as many as the ones that block |
| `AcceptanceCriteria.ReadyMonotone` | services/state-machine/src/ac/result.rs:41-88 | more field checks true and more ids listed keep a ready result ready |
| `AcEvaluators.FiveMandatory` | services/state-machine/src/ac/s3.rs:30-80 | in each of the six phases exactly the first five criteria are mandatory, by the text of their ids |
| `ReadyConditions.IntakeIff` | services/state-machine/src/ac/s1.rs:7-50 | in problem intake: ready exactly when statement, domain, goal, a pain point and a scope boundary are there or listed; the unmet count counts those missing and the optional document |
| `ReadyConditions.DiscoveryIff` | services/state-machine/src/ac/s2.rs:7-50 | in discovery: ready exactly when two actors, one who decides, an external system, a success definition and a regulatory context are there or listed; the unmet count likewise |
| `ReadyConditions.ElicitationIff` | services/state-machine/src/ac/s3.rs:8-80 | in elicitation: five positions with functional requirements, a non-functional one, an actor behind each of at least one requirement, each or its listing, and AC-S3-04 and AC-S3-05 by listing only; the unmet count likewise |
| `ReadyConditions.CaptureIff` | services/state-machine/src/ac/s4.rs:7-76 | in constraint capture: a budget, a timeline, a technology and a residency constraint and an assumption, each or its listing; the unmet count likewise |
| `ReadyConditions.AlignmentIff` | services/state-machine/src/ac/s5.rs:7-60 | in alignment: approach, environment and an external system, each or its listing, and AC-S5-04 and AC-S5-05 by listing only; the unmet count likewise |
| `ReadyConditions.ReviewIff` | services/state-machine/src/ac/s6.rs:8-53 | in review: BRD, HLD and signature, each or its listing, and AC-S6-04 and AC-S6-05 by listing only; the unmet count likewise |
| `ReadyConditions.SignedOffNeverReady` | services/state-machine/src/state/phase.rs:42-46 | a signed-off session is not ready and has nothing unmet |
| `Phases.IndexIsPlace` | services/state-machine/src/state/phase.rs:7-15 | the index of a phase is its place in the order of the interview |
| `Gates.GatesClosedIff` | services/state-machine/src/gates/manager.rs:12-76 | no hard gate is open exactly when BRD, HLD and signature are there and a regulatory context that is not empty comes with a document; the count is the number of missing pieces |
| `Gates.DocumentsMatterOnlyIfRegulated` | services/state-machine/src/gates/manager.rs:61-73 | without a regulatory context, or with an empty one, documents change nothing about the open gates |
| `Transitions.ApprovedIff` | services/state-machine/src/state/transition.rs:14-63 | a transition is approved exactly when it goes one phase forward, the phase is ready, BRD, HLD and signature are there, and a non-empty regulatory context comes with a document |
| `Transitions.RejectionIff` | services/state-machine/src/state/transition.rs:19-53 | which error a rejection names and with what count: terminal phase, then wrong target, then the number of missing pieces of evidence, then the positive number of unmet criteria |
| `Sessions.Session.constructor` | services/state-machine/src/state/session.rs:248-297 | a new session is in problem intake with every list empty and every option unset |
| `Sessions.Session.ApplyAcUpdate` | services/state-machine/src/state/session.rs:302-312 | in place, an update changes the two lists as the list function says and no other field |
| `Sessions.Session.ApplyEntity` | services/state-machine/src/state/session.rs:316-348 | in place, an entity is routed to its list, kept once where the source keeps it once, and reported unknown, changing nothing, for any other type |
| `Sessions.Session.Revisit` | services/state-machine/src/state/transition.rs:72-106 | refused exactly for SignedOff and the current phase; otherwise it records the move, sets target and phase, and clears nothing |
| `Sessions.ActorParts` | services/state-machine/src/state/session.rs:27-36 | an actor's name and role are what stands before and after the first comma, trimmed; without a comma there is no role |
| `Sessions.TrimmedDashes` | services/state-machine/src/state/session.rs:32 | trimming takes all leading dashes and nothing else |
| `Sessions.DecidesIff` | services/state-machine/src/state/session.rs:20-25 | an actor decides exactly when the text holds one of five phrases in any case |
| `Sessions.RequirementIff` | services/state-machine/src/state/session.rs:65-88 | a requirement keeps its text, names no actor, and is non-functional exactly when it holds one of nine words in any case |
| `Sessions.ConstraintIff` | services/state-machine/src/state/session.rs:110-158 | a constraint keeps its text and has, of the kinds whose words it holds, the first in the order timeline, budget, regulatory, residency, technology |
| `SessionUpdates.LastWriterWins` | services/state-machine/src/state/session.rs:302-312 | after any update sequence an id is met exactly when its last update says so or it was met and is not named; the waived ids are the old ones without those some update met; duplicate-free, disjoint lists stay so |
| `SessionUpdates.MetUpdatesOnlyAdd` | services/state-machine/src/state/session.rs:302-312 | updates that are all met list, beyond what was listed, exactly the ids they name |
| `SessionUpdates.CaptureFactors` | services/state-machine/src/state/session.rs:316-348 | a batch appends to each list the image of its own type's values, in order, and other types change nothing |
| `SessionUpdates.AddAllOnceMeaning` | services/state-machine/src/state/session.rs:330-339 | adding once keeps the old list in front, contains exactly old and new values, and adds no duplicate |
| `SessionUpdates.OnlyOrderWithinTypesMatters` | services/state-machine/src/grpc/service.rs:118-123 | batches that agree type by type give the same lists, however the types are interleaved |
| `SessionUpdates.SplitOverTurns` | services/state-machine/src/grpc/service.rs:118-123 | a batch split over several turns gives the same lists |
| `SessionUpdates.UnknownTypesAreIgnored` | services/state-machine/src/grpc/service.rs:118-123 | entities of unknown type can be left out anywhere in a batch without changing its effect |
| `SessionUpdates.CaptureKeepsDistinct` | services/state-machine/src/state/session.rs:330-339 | assumptions and open questions stay free of duplicates |
| `Readiness.FieldsMonotone` | services/state-machine/src/ac/s2.rs:7-50 | as lists grow no mandatory field check turns false, that of AC-S3-03 excepted |
| `Readiness.LinkedAfterTurn` | services/state-machine/src/ac/s3.rs:21-22 | after a turn every requirement names an actor exactly when they all did and the turn brought none |
| `Readiness.ReadinessStableIff` | services/state-machine/src/ac/s3.rs:21-49 | a ready phase stays ready under a turn whose updates are all met, except that in requirement elicitation it does so exactly when the turn brings no requirement or AC-S3-03 is listed before or by the turn |
| `Readiness.ReadinessCanBeLost` | services/state-machine/src/state/session.rs:81-88 | a ready state and a one-entity turn without updates after which it is not ready |
| `StateEngines.StateEngineService.Create` | services/state-machine/src/grpc/service.rs:60-84 | a session in the initial state is filed under the fresh id, replacing what was there; other sessions are untouched; unparsable ids change nothing |
| `StateEngines.StateEngineService.Get` | services/state-machine/src/grpc/service.rs:88-101 | reads the session's state, or reports an unparsable or unknown id, and changes nothing |
| `StateEngines.StateEngineService.ApplyTurn` | services/state-machine/src/grpc/service.rs:105-154 | entities, then updates, then cost and the 32-bit turn counter; the response gives readiness and the unmet count of the state after them; other sessions are untouched |
| `StateEngines.StateEngineService.Transition` | services/state-machine/src/grpc/service.rs:158-192 | the phase changes to the target exactly when the attempt succeeds, and nothing else changes |
| `StateEngines.StateEngineService.Revisit` | services/state-machine/src/grpc/service.rs:196-229 | the session is revisited when allowed; otherwise nothing changes and the response says so |
| `EngineAnswers.RefusedIff` | services/state-machine/src/grpc/service.rs:60-215 | a request is refused as invalid exactly when a text of it does not parse, and as not found exactly when it parses and its session does not exist; neither changes anything |
| `EngineAnswers.CreateAnswer` | services/state-machine/src/grpc/service.rs:60-84 | a created session is in problem intake with everything empty, unset and zero; no other session changes |
| `EngineAnswers.GetAnswer` | services/state-machine/src/grpc/service.rs:88-101 | reading answers the stored session and changes nothing |
| `EngineAnswers.TurnAnswer` | services/state-machine/src/grpc/service.rs:105-154 | a turn changes the captured lists, the criterion lists, the cost and the 32-bit turn count of its session and nothing else; the answer is readiness and unmet count afterwards |
| `EngineAnswers.TransitionAnswer` | services/state-machine/src/grpc/service.rs:158-192 | a transition is answered without error, and the phase alone changed, exactly under the conditions of the approval, written out in the session's fields; otherwise nothing changes |
| `EngineAnswers.RevisitAnswer` | services/state-machine/src/grpc/service.rs:196-229 | a revisit is accepted exactly when its target is neither SignedOff nor the current phase; then phase, target and one more record are new and nothing else; otherwise nothing changes |
| `EngineAnswers.ForwardRevisitIff` | services/state-machine/src/state/transition.rs:65-85 | every return to a prior phase is accepted; beyond those exactly the revisits forward to a phase other than SignedOff, and there is one from every phase before review |
| `EngineAnswers.EveryPhaseOneRequestAway` | services/state-machine/src/state/transition.rs:72-106 | from every reachable state, SignedOff included, every phase but SignedOff is at most one request away |
| `SessionRuns.OthersUntouched` | services/state-machine/src/grpc/service.rs:105-229 | a step changes no session but the one it names or creates |
| `SessionRuns.StepCharacterised` | services/state-machine/src/grpc/service.rs:60-229 | each step on a session creates it anew, approves one transition that passed every guard, makes one allowed revisit, or leaves phase, target and history alone |
| `SessionRuns.LogTellsAll` | services/state-machine/src/state/transition.rs:72-106 | in every run the responses since the session's creation form a chain from problem intake to its phase, and its revisit history is exactly the accepted revisits among them |
| `SessionRuns.PhaseConservation` | services/state-machine/src/state/transition.rs:87-102 | in every run the phase index is the number of approved transitions plus the sum over the revisit history of index(to) - index(from); the revisit target is the last record's |
| `SessionRuns.GapsAreApprovals` | services/state-machine/src/state/transition.rs:87-102 | from one recorded revisit to the next the phase index rises, by exactly the approvals between them; likewise before the first and after the last |
| `SessionRuns.PhasesArePaidUnlessForward` | services/state-machine/src/state/transition.rs:65-106 | in every run, a session whose recorded revisits all went back has at least as many approvals as its phase index and its revisits together: with fewer, some recorded revisit went forward |
| `SessionRuns.SignedOffLeftOnlyByRevisit` | services/state-machine/src/state/transition.rs:72-106 | a session leaves SignedOff only by an accepted revisit, which is recorded, or by being created anew under its id |
| `SessionRuns.CostsAddUp` | services/state-machine/src/grpc/service.rs:131-133 | in runs of the requests alone a session's cost is the sum of its turns' costs since it was created and its turn counter their number modulo 2^32, negative deltas counting as 0 |
| `SignOff.EntryNeedsEvidence` | services/state-machine/src/state/transition.rs:19-62 | a step into SignedOff is a request to go there, made in ReviewAndSignOff with BRD, HLD, signature, a document if the regulatory context is not empty, and AC-S6-04 and AC-S6-05 listed |
| `SignOff.SignOffEvidence` | services/state-machine/src/ac/s6.rs:8-53 | behind every signed-off session of every run there is one step that signed it off with that evidence, and it has been signed off ever since |
| `SignOff.RequestsAloneNeverAdvance` | services/state-machine/src/grpc/service.rs:60-229 | in runs of the requests alone no transition is ever approved, no session is signed off, inputs and waivers stay empty, no requirement names an actor, and the revisit history is one chain from problem intake to the current phase |
| `SignOff.RequestsAloneJumpForward` | services/state-machine/src/state/transition.rs:65-85 | in runs of the requests alone a session's first revisit always goes forward |
| `SignOff.SignOffTakesApprovals` | services/state-machine/src/state/transition.rs:14-106 | a signed-off session has at least one approval, and at least six plus one for each revisit when none went forward |
| `SignOff.OneApprovalCanSuffice` | services/state-machine/src/state/transition.rs:72-85 | a run signs a session off with a single approval, a revisit forward having skipped the criteria of five phases |
| `SignOff.RpcReachableIff` | services/state-machine/src/state/transition.rs:72-85 | requests alone can bring a session to a phase exactly when it is not SignedOff: the later ones by revisits that jump forward |
| `SignOff.EveryPhaseReachable` | services/state-machine/src/state/transition.rs:14-63 | with the environment's help every phase, SignedOff included, is reached by some run |
| `GapAnalyzers.RoundSettlesFirst` | services/ai-orchestration/src/ai_orchestration/agents/gap_analyzer.py:195-213 | recording the asked criterion as met settles it and no other |
| `GapAnalyzers.InterviewInTableOrder` | services/ai-orchestration/src/ai_orchestration/agents/gap_analyzer.py:184-213 | round n of the guided interview asks about the n-th unmet criterion of the table and reports how many are left; none is asked twice; the fallback turns terminal after exactly as many rounds as there were unmet criteria |
| `GapAnalyzers.TableMatchesChecks` | services/ai-orchestration/src/ai_orchestration/agents/gap_analyzer.py:38-67 | each of the four tables lists exactly the ids of the engine's five mandatory criteria, in order; the other three phases have none |
| `GapAnalyzers.TerminalMeansReadyIff` | services/ai-orchestration/src/ai_orchestration/agents/gap_analyzer.py:184-203 | that a terminal fallback implies the engine's readiness, for all sessions in a phase, holds exactly when the session arrives serialised and the phase has a table |
| `GapAnalyzers.TerminalTooEarly` | services/ai-orchestration/src/ai_orchestration/grpc/servicer.py:189-214 | otherwise, in the phases without a table and in every phase when the session is rebuilt from the message fields, an empty session already gets the terminal gap while the engine is not ready |
| `GapAnalyzers.NeverAsksTooFew` | services/ai-orchestration/src/ai_orchestration/agents/gap_analyzer.py:206-213 | in a tabled phase the fallback's unmet count is never below the engine's number of blocking criteria |
| `BudgetTrackers.SharedTotal.IncrByFloat` | services/ai-orchestration/src/ai_orchestration/llm/budget.py:86-91 | the increment is applied to the total, absent counting as 0, or not at all |
| `BudgetTrackers.BudgetTracker.Load` | services/ai-orchestration/src/ai_orchestration/llm/budget.py:46-64 | the counter starts at the shared total, and at 0 when the key is missing or the store fails |
| `BudgetTrackers.BudgetTracker.Record` | services/ai-orchestration/src/ai_orchestration/llm/budget.py:82-96 | memory always gains the cost, the store only when reachable; for a non-negative cost the stage does not move back; run alone it is the two steps of the interleaved model |
| `BudgetTrackers.StageIff` | services/ai-orchestration/src/ai_orchestration/llm/budget.py:26-28 | the stages by their limits: below 3, from 3, from 4.50 and from 5 dollars |
| `BudgetTrackers.StageMonotone` | services/ai-orchestration/src/ai_orchestration/llm/budget.py:70-77 | a larger spend is never at an earlier stage |
| `BudgetTrackers.SharedIsSumOfPersisted` | services/ai-orchestration/src/ai_orchestration/llm/budget.py:86-96 | under any interleaving of any number of workers and failures the shared total is its first value plus the costs it applied |
| `BudgetTrackers.TrackerIsLoadedPlusOwn` | services/ai-orchestration/src/ai_orchestration/llm/budget.py:46-84 | each tracker holds what it loaded plus the costs it recorded itself |
| `BudgetTrackers.OverstatementBounded` | services/ai-orchestration/src/ai_orchestration/llm/budget.py:82-96 | with non-negative costs a tracker exceeds the shared total by at most its own costs that the store has not applied |
| `BudgetTrackers.StageNeverMovesBack` | services/ai-orchestration/src/ai_orchestration/llm/budget.py:70-84 | with non-negative costs no worker's stage moves back between any two moments of a run |

## Left out

- The 25 s ceiling of the drain loop is a step that may happen whenever the queue is empty; safety covers it, `NeverStuck` and `EveryCallFinishes` do not rely on it, and the value 25 is not modelled.
- Closing the abandoned generator itself, and the collection of a task nobody refers to any more, are left to the runtime; `Abandonment` takes the graph task to go on.
- LLM calls, prompts, reply parsing and the graph library: the nodes of a turn return any values or fail at any point. A turn's result keeps intent, tokens, errors, the aborted flag and cost; entities, updates and the gap analysis are carried along unread by the modelled code.
- `RunPipeline` without generated stubs, and `IngestDocument`, only log or delegate.
- Unicode: a fixed set of blanks and a per-character lower-casing that keeps them stand for `split`, `strip` and `lower`.
- PDF and plain-text extraction are library calls; DOCX parsing starts from a list of paragraphs with style and text.
- `Ingestion.Ingest`: starts after extraction, and leaves out the storage, status and publish calls of lines 103-140 and 176-178; PII scrubbing is any map on texts, so nothing is said about what it removes.
- `Chunkers.Chunker.Chunk`: requires exactly the condition of `LoopEndsIff`, since outside it the source's loop does not end; the loop itself is modelled there too (`StartAfter`).
- Floating point: costs and weights are real numbers; rounding is not modelled.
- `StateEngines.StateEngineService.ApplyTurn`: the turn counter wraps at 32 bits as a release build does; a debug build would panic instead.
- Text of ids and phases is parsed outside the model: a request carries the parsed value or nothing. Phase aliases, descriptions, suggested questions, confidences, source chunks, evidence texts, UUID values, workspace and project ids and timestamps are not kept: no modelled decision reads them.
- `upload_gates_resolved` and `upload_gates_waived` are fields that nothing reads.
- `AcResult::all_unmet`, `met_count` and `GateManager::open_gates` are used by no request; the gate vector is modelled as the list it ends up as.
- `GapAnalyzers.InterviewInTableOrder`: covers the deterministic fallback, not the LLM's own choice of a gap.
- `BudgetTrackers.BudgetTracker.Record`: the 7-day expiry, logging and the unused `_limit_usd` override are left out; a store call either applied the increment or did not, whatever the caller was told.
- SQL, hybrid search, the gateway, configuration loading and deployment are plumbing around the modelled code.
