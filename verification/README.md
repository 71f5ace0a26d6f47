# Proofs about the live-transcription platform

This project models the parts of the platform whose correctness depends on
interleavings, incremental text processing or buffer arithmetic, and proves what
they promise over every run. `dafny verify dfyconfig.toml` checks all of it.

| file | what it models |
|---|---|
| `Options.dfy`, `Sequences.dfy`, `Text.dfy` | missing values; increasing numbers; whitespace, stripping, word splitting and joining, as Python and JavaScript do them |
| `Assembler.dfy`, `SentenceFreezing.dfy` | the decomposition of a cumulative text into frozen sentences and a tail; which text that freezes, read off the characters |
| `KeyState.dfy`, `Pipeline.dfy` | prefix-freezing translation: freeze, tail and final tasks in any interleaving, any of them failing |
| `Publication.dfy` | when a partial translation is shown |
| `FreezeOrder.dfy`, `ResetRace.dfy` | what a reset under pending freezes leaves behind when the key lock keeps freezes in order; a run in which it spoils a final |
| `ProviderAccess.dfy`, `TailSlot.dfy` | the translation scheduler: semaphore, per-key locks, latest-wins tails |
| `SessionStatus.dfy` | session and channel rows under READ COMMITTED: updateSession, unregister, reconcile, autoStart, autoEnd, endBotSession, reset, pause, resume, stop |
| `PersistChain.dfy`, `DrainBarrier.dfy` | per-channel persistence chains, and the stop order that makes `inactive` a drain barrier |
| `Segmentation.dfy`, `Pacing.dfy` | the streaming transcriber: cutting deltas into finals; audio buffering and silence pacing |
| `SegmentIds.dfy`, `SessionSnapshots.dfy` | segment numbering and the difference of session snapshots |
| `AudioMixer.dfy`, `TranscriberStream.dfy`, `BrowserPool.dfy` | the bot: ring buffers and mix, the acknowledged audio stream over reconnects, browser capacity |

## How to read it

Each asynchronous component is a transition system: a `State`, an `Event` for
every stretch of code between two awaits (or two SQL statements), `Enabled`,
`Next`, and `Exec` or `Run` for whole runs. `NextKeepsInv` and `ExecInv` carry
the invariant; the theorems under "the theorems" in each file follow from it for
every run. Components that update fields in place are also classes whose methods,
loops included, are proved to change the object as the specification functions
say. Fields marked "history" are not in the source: they record what happened so
that it can be stated.

Facts about text are stated after erasing whitespace. A word-wise statement would
be false (`Text.WordsMayDiffer`): when a sentence ends a partial and the next partial goes on without a
space, the words differ although the characters agree.

## Assumptions

- pySBD returns ordered spans whose gaps are whitespace, or its answer is not used
  (`Assembler.Sound`); RapidFuzz and the stability gate are arbitrary verdicts.
- The translation provider is arbitrary: it may answer anything, or fail, at any
  time. What it answered is recorded, so that "the provider's translation of x"
  means an answer it gave to x.
- The set of target languages of a channel is constant.
- PostgreSQL: a row lock and a row write wait for the transaction that holds the
  row; a statement reads committed rows and its own transaction's writes; a
  one-statement UPDATE takes effect at once, on any of the rows that matched.
- A WebSocket opens once per `start()`.
- A sleep does not end before its time; brokers deliver one channel's messages in
  publication order; a snapshot lists each session id once.

## Where the code does not do what it says

- A reset of the assembler while freezes are pending lets the revoked sentences'
  translations back in (`ResetRace.LateAnswerSpoilsFinal`). What a final
  reassembles is the translation of its sentences exactly when the translations
  it reads are in step with them (`KeyStates.InStepIsExact`), and
  `Pipelines.PublishedFinalIsFaithful` covers every run on that condition. With
  freezes let through in order it fails in two cases only
  (`FreezeOrder.ReuseIsInStepUnlessOvertaken`): an overtaken translation stands
  right after the last sentence, or at a sentence whose own freeze failed.
- Freezes are documented as sequential per key. They are in every run whose purges
  never hit a free lock with requests queued on it
  (`ProviderAccess.FreezesAreSequentialPerKey`). Such a purge, between the release
  of a lock and the next waiter's turn, gives later freezes another lock
  (`ProviderAccess.PurgeDetaches`), and then two permits in all are enough for two
  freezes of the key to be with the provider at once
  (`ProviderAccess.AttachedIsExact`, `ProviderAccess.PurgeBreaksKeyOrder`).
- Fired tail versions increase within a key state, not across the key states that
  use one slot (`TailSlots.FiredVersionsIncrease`, `TailSlots.FiredVersionsMayRepeat`).
- The comment at `Transcriber/ASR/openai_streaming/index.js:529` exempts hard
  silence from the minimum word count; the code does not
  (`Segmentation.ShortTextsWait`, `Segmentation.ShortTextIsHeldForever`).
- The startup reset runs again at every broker reconnection
  (`lib/mqtt.js:93-113`), in two statements. A
  stream that starts between them ends up active in a ready session
  (`SessionStatus.ResetOverrunsActivation`), exactly when
  `SessionStatus.ResetKeepsStatus` says.
- `/resume` makes a session active even when none of its channels is
  (`SessionStatus.ResumeFindsNoStream`), exactly then disagreeing with them
  (`SessionStatus.ResumeAgrees`); the next updateSession corrects it.
- The browser pool caps the contexts it has registered, not those it has opened: of
  two overlapping creations of one id the second overwrites the first, whose
  context stays open and uncounted (`BrowserPools.OverlappingCreationsOverflow`).
  `BrowserPools.OpenContextsAreBounded` says when the cap holds for open contexts.
- The startup reset asks for the channels of active sessions only, but an UPDATE
  ignores the `include`, so all active channels are deactivated; the model does the
  same.

## Model

| member | source | states |
|---|---|---|
| Assembler.UpdateConserves | TranslatorPython/translator/assembler.py:62-124 | after an update with any text the consumed text is a prefix of it, and the frozen sentences followed by the tail spell it, whitespace aside |
| Assembler.UpdateAppends | TranslatorPython/translator/assembler.py:67-124 | a reset happens exactly when the text no longer starts with the consumed prefix; otherwise frozen sentences are only appended; the reported ones are the new ones, with contiguous indices |
| Assembler.RunSpells | TranslatorPython/translator/assembler.py:47-124 | over any run of updates on arbitrary texts, with whatever segmentation pySBD gave each time, the frozen sentences spell the consumed prefix of the latest text |
| Assembler.EraseFreeze | TranslatorPython/translator/assembler.py:79-120 | what one update freezes has exactly the visible characters of the stretch it consumes |
| Assembler.SoftChunksSettle | TranslatorPython/translator/assembler.py:104-120 | the soft-chunk loop ends with a raw tail within the budget or whose window holds no cut point, and cuts only after whitespace |
| Assembler.SettledStops | TranslatorPython/translator/assembler.py:106-114 | the loop stops exactly there: within the budget, or no weak separator and no space in the window |
| Assembler.SoftChunksBounded | TranslatorPython/translator/assembler.py:115-118 | no soft chunk is empty or longer than the budget |
| Assembler.FallbackCovers | TranslatorPython/translator/assembler.py:148-154 | the regex fallback's spans cover the text in order, without gaps |
| Assembler.FallbackTailIsFinal | TranslatorPython/translator/assembler.py:85-120 | on the fallback path nothing more can be frozen from what an update left |
| Assembler.FallbackIdempotent | TranslatorPython/translator/assembler.py:62-124 | on the fallback path a second update with the same text freezes nothing, does not reset and returns the same tail |
| Assembler.FindCut | TranslatorPython/translator/assembler.py:107-112 | the loop over weak separators and the backward search find the cut of the window |
| Assembler.FallbackSegments | TranslatorPython/translator/assembler.py:148-154 | the matching loop builds the fallback's spans |
| Assembler.SegmentAssembler.FreezeComplete | TranslatorPython/translator/assembler.py:96-100 | the loop over complete spans appends their stripped, non-empty texts and numbers them |
| Assembler.SegmentAssembler.SoftChunk | TranslatorPython/translator/assembler.py:104-120 | the soft-chunk loop appends its chunks and leaves the tail where the specification says |
| Assembler.SegmentAssembler.Update | TranslatorPython/translator/assembler.py:62-124 | the method changes the object as the specification of one update says and counts resets |
| SentenceFreezing.UnfinishedSentenceStays | TranslatorPython/translator/assembler.py:79-124 | for every text and every sound segmentation of a rest that is not blank: a last span with a strong mark after no digit, followed by closers and whitespace only, is frozen with the others, all is consumed and the tail is empty; without one nothing of the last span is frozen except its soft chunks, and within the budget the text is consumed up to the span and the tail is the span, stripped |
| SentenceFreezing.FallbackConsumesSentences | TranslatorPython/translator/assembler.py:79-124 | on the fallback path, with the unfinished sentence within the budget, an update consumes to the end of a text that ends a sentence, and else exactly to its last boundary |
| SentenceFreezing.TailIsRest | TranslatorPython/translator/assembler.py:102-124 | the tail is always the text after the consumed prefix, stripped |
| SentenceFreezing.EndsSentenceIs | TranslatorPython/translator/assembler.py:30-30 | the expression for a complete tail matches exactly when a strong mark after no digit, then closers, then whitespace end the text |
| SentenceFreezing.BoundaryIs | TranslatorPython/translator/assembler.py:150-150 | the boundary expression matches exactly such a mark and closers followed by whitespace, and takes all of the whitespace |
| SentenceFreezing.FallbackCutsAtBoundaries | TranslatorPython/translator/assembler.py:148-154 | the fallback ends a span after every boundary and nowhere else |
| SentenceFreezing.SentencesAreSpans | TranslatorPython/translator/assembler.py:96-100 | the frozen sentences are the spans that are not blank, in order, stripped, one each |
| SentenceFreezing.CutIsLast | TranslatorPython/translator/assembler.py:107-112 | a window is cut after its last weak separator, without one after its last space, without either nowhere |
| SentenceFreezing.CutIsInsideTheBudget | TranslatorPython/translator/assembler.py:105-112 | the window is the first soft_chunk_chars characters of the tail, as a Python slice has them |
| SentenceFreezing.ChunksAreStretches | TranslatorPython/translator/assembler.py:104-120 | the chunks are the stretches between these cuts that are not blank, stripped |
| KeyStates.AssembleGrows | TranslatorPython/translator/pipeline.py:169-179 | more frozen translations only extend the assembled text at its end |
| KeyStates.KeyState.AssembleText | TranslatorPython/translator/pipeline.py:169-179 | the while loop collects the contiguous frozen prefix, then the tail translation |
| KeyStates.KeyState.IsComplete | TranslatorPython/translator/pipeline.py:181-182 | true exactly when every expected index is translated |
| KeyStates.FreezeSentencesOk | TranslatorPython/translator/pipeline.py:315-324 | handing out newly frozen sentences keeps one task per sentence, none translated yet, none asked |
| KeyStates.AskFreezeOk | TranslatorPython/translator/pipeline.py:351-354 | sending a sentence keeps every other one's request count |
| KeyStates.FreezeAnsweredOk | TranslatorPython/translator/pipeline.py:351-381 | an answer or failure keeps translations in step with their sentences, and what is published extends everything published before when tails are off |
| KeyStates.TailAnsweredOk | TranslatorPython/translator/pipeline.py:392-424 | a tail's completion, published or not, keeps the cached tail a provider answer |
| KeyStates.ResetKeyOk | TranslatorPython/translator/pipeline.py:301-309 | voiding the frozen translations keeps the key state's invariant, flagging pending tasks as overtaken |
| KeyStates.SentCharsOnce | TranslatorPython/translator/pipeline.py:315-324 | asking each sentence once sends exactly its visible characters |
| KeyStates.InStepIsExact | TranslatorPython/translator/pipeline.py:169-182 | once every sentence has a translation, what is assembled is one answer per sentence, in order, exactly when each translation answers its sentence and none follows the last |
| KeyStates.CleanIsInStep | TranslatorPython/translator/pipeline.py:301-309 | that is so whenever no reset overtook a pending freeze |
| KeyStates.AnswerKeepsInStep | TranslatorPython/translator/pipeline.py:366-371 | a completion ends it exactly when its index is the one after the last sentence, or a sentence it does not translate |
| KeyStates.OnlyTwoPlacesMatter | TranslatorPython/translator/pipeline.py:301-324 | with freezes in order and none pending, an overtaken answer can matter after the last sentence, or at a sentence whose own freeze failed, and nowhere else |
| KeyStates.KeyState.QueueFreezes | TranslatorPython/translator/pipeline.py:315-324 | the loop creates one pending task per newly frozen sentence |
| KeyStates.KeyState.OnFreezeAnswered | TranslatorPython/translator/pipeline.py:351-381 | records the translation, and publishes the assembled text only when current and not finalized |
| KeyStates.KeyState.OnTailAnswered | TranslatorPython/translator/pipeline.py:392-424 | caches the tail translation, and publishes it only past the monotonicity and stability guards |
| KeyStates.KeyState.Reset | TranslatorPython/translator/pipeline.py:301-309 | empties the frozen translations and advances the tail version |
| Pipelines.NextKeepsInv | TranslatorPython/translator/pipeline.py:264-558 | every event, in any order, keeps key states in step with the assembler, finals on frozen snapshots, and their promises |
| Pipelines.ExecInv | TranslatorPython/translator/pipeline.py:264-558 | the invariant holds after every run of partials, task completions and failures, and finals |
| Pipelines.PublishedFinalIsFaithful | TranslatorPython/translator/pipeline.py:430-558 | over every run, resets included, a published final is the provider's translation of the whole final text, or, when its translations are in step with its sentences, an ordered partition of that text translated piecewise; being in step is exactly what it takes for the assembled translations to be those of its sentences, and always so when no reset overtook a freeze |
| Pipelines.EchoPublishesTheFinalText | TranslatorPython/translator/pipeline.py:519-558 | with an echo provider the published final is the final text once whitespace is erased |
| Pipelines.PartialsNeverFlicker | TranslatorPython/translator/pipeline.py:340-381 | over every run with live tails off and no reset, each partial of a key state is a string prefix of every later one, for any completion order and any failures |
| Pipelines.NothingPartialAfterFinal | TranslatorPython/translator/pipeline.py:430-456 | no event makes a finalized key state publish a partial |
| Pipelines.FinalCostIsLinear | TranslatorPython/translator/pipeline.py:519-558 | over every run a final adds at most one request; on the reuse paths every sentence was requested once, and the visible characters of the sentences, of what the final sent and of the reused tail are those of the final text; a retranslated final sends its own |
| Pipelines.WholeTextOnlyWhenNeeded | TranslatorPython/translator/pipeline.py:535-556 | over every run, failures and resets included: a final is sent whole, or published as retranslated, only when its text does not begin with the consumed words or a freeze of its key state failed |
| Pipelines.OnlyMissingWordsAreSent | TranslatorPython/translator/pipeline.py:535-549 | over every run: a final that begins with the consumed words, all of whose freezes succeeded, sends exactly the words missing after them, in one request, and publishes their answer after the frozen translations; it sends nothing, and is published, when none is missing or the cached tail has just these words |
| Pipelines.SentLengthIsExact | TranslatorPython/translator/pipeline.py:519-556 | over every run and every path, failed ones included: the visible characters a decided final sent are those of its whole text, none, or those after the consumed text |
| Pipelines.FinalsGoOn | TranslatorPython/translator/pipeline.py:535-556 | after every run a waiting final can decide exactly when it need not wait for a pending freeze, and one that asked is published unless the provider fails |
| Pipelines.FinalTakesOver | TranslatorPython/translator/pipeline.py:445-456 | a final takes the key state in use, with the assembler's sentences and consumed text, and empties the tables |
| Pipelines.RemainderIsMissing | TranslatorPython/translator/pipeline.py:560-572 | the remainder exists exactly when the final begins with the consumed words, consists of the missing words, and equals a text's normalized form exactly when it has the same words |
| Pipelines.NothingRemainingAsksNothing | TranslatorPython/translator/pipeline.py:534-542 | over every run, resets included: a final with nothing remaining after its frozen sentences, all of whose freezes succeeded, makes no request |
| KeyStates.SuccessIsComplete | TranslatorPython/translator/pipeline.py:181-182 | with nothing pending and no failed freeze every sentence has its translation, whatever resets came before |
| Pipelines.EachSentenceAskedOnce | TranslatorPython/translator/pipeline.py:311-324 | over every run each frozen sentence of each language is requested by its own task at most once, and exactly once when that task has left the queue |
| Pipelines.RemainderCompletes | TranslatorPython/translator/pipeline.py:560-572 | a word-prefix remainder completes the consumed text to the final text, whitespace aside |
| Pipelines.SpellFinal | TranslatorPython/translator/pipeline.py:530-552 | frozen sentences followed by any text spelling the remainder spell the final |
| Pipelines.ReuseIsFaithful | TranslatorPython/translator/pipeline.py:537-552 | reassembling a complete key state, with one more answer for the remainder, is a piecewise translation of the final |
| Pipelines.ReuseCosts | TranslatorPython/translator/pipeline.py:535-552 | once nothing is pending, the sentences sent plus the remainder have the visible length of the final |
| Pipelines.DecidedOk | TranslatorPython/translator/pipeline.py:519-558 | the path a final chooses keeps its promises: faithful, linear, and only what is missing sent, whichever of the four it is |
| Pipelines.FinalAnsweredOk | TranslatorPython/translator/pipeline.py:546-558 | the answer to the remainder or to the whole text completes them |
| Pipelines.FinalArrivesKeepsInv | TranslatorPython/translator/pipeline.py:430-463 | detaching the channel and its key states gives each final a snapshot nothing changes any more |
| Pipelines.PartialKeepsLinks | TranslatorPython/translator/pipeline.py:264-324 | after a partial each target's key state lists exactly the assembler's frozen sentences |
| Pipelines.PartialKeepsFinals | TranslatorPython/translator/pipeline.py:284-297 | a partial of a new segment leaves waiting finals untouched |
| Publications.CurrentPartialShowsAll | TranslatorPython/translator/pipeline.py:364-381 | over every run with live tails off: as long as no reset hit the key state in use, the last partial shown is everything translated so far |
| Publications.FreezeIsShown | TranslatorPython/translator/pipeline.py:364-381 | after every run the answer to a freeze is shown exactly when its key state is the one in use, as the frozen translations with the last tail |
| Publications.TailIsShownWhenLatest | TranslatorPython/translator/pipeline.py:392-424 | after every run the answer to a tail is cached, and shown exactly when its key state is in use, it is the last tail submitted with no reset since, and the stability gate lets it through |
| Publications.TailVersionsGrow | TranslatorPython/translator/pipeline.py:301-338 | tail numbers only grow, so an overtaken tail stays overtaken |
| Publications.NothingElseIsShown | TranslatorPython/translator/pipeline.py:340-424 | failures and all other events show nothing |
| Publications.PartialSubmitsTail | TranslatorPython/translator/pipeline.py:326-338 | in live mode each partial submits its tail for every target the change gate does not skip, under the newest number; a reset voids what was submitted before |
| FreezeOrder.InStepUnlessOvertaken | TranslatorPython/translator/pipeline.py:301-338 | over every run with freezes let through in creation order, whatever resets and failures: a settled key state is in step exactly when no overtaken translation stands in one of the two places |
| FreezeOrder.ReuseIsInStepUnlessOvertaken | TranslatorPython/translator/pipeline.py:537-552 | so the event that publishes a reassembled final publishes it in step exactly then; without failed freezes, exactly when nothing stands after the last sentence |
| ResetRace.LateAnswerSpoilsFinal | TranslatorPython/translator/pipeline.py:301-309 | a reachable run without any failure, freezes in order, segmented by the regex fallback: a reset overtakes two pending freezes, and the final is published with a sentence it does not contain |
| ProviderAccess.InflightIsPermitsHeld | TranslatorPython/translator/scheduler.py:62-68 | over every run the in-flight counter equals the requests in the provider and the permits held, and never exceeds the cap, whatever fails or is cancelled |
| ProviderAccess.LocksAreFifo | TranslatorPython/translator/scheduler.py:70-75 | past one key lock there is one request at a time, and requests pass in arrival order |
| ProviderAccess.ArrivalsQueueUp | TranslatorPython/translator/scheduler.py:62-75 | in every reachable state an arrival is one more request: a tail waits for a permit, a freeze is past the lock of its key when that is free with nobody queued, and else queues behind everyone |
| ProviderAccess.SomebodyGoesOn | TranslatorPython/translator/scheduler.py:62-75 | nobody is stuck: with a permit at all, in every reachable state with requests some request can go on |
| ProviderAccess.FreezesAreSequentialPerKey | TranslatorPython/translator/scheduler.py:70-75 | over every run whose purges never hit a free lock with requests queued on it: each freeze uses its key's lock, at most one per key is with the provider, and they pass in arrival order |
| ProviderAccess.AttachedIsExact | TranslatorPython/translator/scheduler.py:126-134 | with two permits or more, in every reachable state: freezes stay sequential per key, whatever follows without a purge, exactly when each uses the lock its key has in the table |
| ProviderAccess.DetachedLeadsToRivals | TranslatorPython/translator/scheduler.py:126-134 | with two permits or more a detached freeze always leads, without further purges, to two freezes of its key with the provider at once |
| ProviderAccess.AttachedKeysAreExclusive | TranslatorPython/translator/scheduler.py:70-75 | while every freeze uses the lock its key has in the table, at most one freeze per key is past it |
| ProviderAccess.OthersKeepAttached | TranslatorPython/translator/scheduler.py:62-118 | nothing but a purge can separate a freeze from its key's lock |
| ProviderAccess.PurgeDetaches | TranslatorPython/translator/scheduler.py:126-134 | a purge does so exactly when the lock is free with requests still queued on it |
| ProviderAccess.PurgeBreaksKeyOrder | TranslatorPython/translator/scheduler.py:126-134 | a reachable run in which two freezes of one key are with the provider at once |
| ProviderAccess.NextKeepsInv | TranslatorPython/translator/scheduler.py:62-134 | every step keeps permits, lock holders and queues consistent |
| TailSlots.PendingHasRunner | TranslatorPython/translator/scheduler.py:77-118 | no lost wake-up: a pending tail is the latest submission, and its runner is live and waits for one event, at the latest one interval after the last fire |
| TailSlots.IdleMeansDone | TranslatorPython/translator/scheduler.py:92-118 | when the runner is gone nothing is pending and every submission was fired, superseded or cancelled |
| TailSlots.FiresAreOrderedAndSpaced | TranslatorPython/translator/scheduler.py:94-118 | at most one tail in flight; submissions = fired + superseded + cancelled + pending; consecutive fires are of later submissions, at least the minimum interval apart |
| TailSlots.RunnerIsPunctual | TranslatorPython/translator/scheduler.py:94-105 | the runner ends without a pending tail, sends a pending one at once when no fire is within the interval, and else sleeps until it is due |
| TailSlots.AnswersAreReported | TranslatorPython/translator/scheduler.py:106-116 | a successful answer is reported, for the tail last sent and before the runner goes on; a failed one is not |
| TailSlots.CancelledIsNeverFired | TranslatorPython/translator/scheduler.py:120-131 | over every run nothing submitted before a cancel or a purge is sent afterwards |
| TailSlots.FiredVersionsIncrease | TranslatorPython/translator/pipeline.py:332-337 | over every run, with the counter that each key state starts at 0 and advances: each fire comes from a later key state than the one before, or carries a higher version of the same one |
| TailSlots.FiredVersionsMayRepeat | TranslatorPython/translator/pipeline.py:430-456 | at any positive interval, a run in which a final cancels the slot, a fresh key state takes it over before it is purged, and version 1 is fired twice |
| TailSlots.NextKeepsInv | TranslatorPython/translator/scheduler.py:77-134 | every event of the slot keeps these facts |
| TailSlots.TailSlot.SubmitTail | TranslatorPython/translator/scheduler.py:77-92 | the latest text overwrites the pending one and a runner is created only when there is none |
| TailSlots.TailSlot.RunHead | TranslatorPython/translator/scheduler.py:94-105 | the runner ends, sleeps until the interval has passed, or fires the pending tail |
| TailSlots.TailSlot.Cancel | TranslatorPython/translator/scheduler.py:120-124 | only a tail not yet fired is dropped |
| SessionStatus.RegularRunsAgree | Scheduler/components/BrokerClient/index.js:606-685 | in any interleaving of updateSession with the steps that do not resume, reset or unregister, whenever nobody holds the session row a session neither paused nor terminated is active exactly when a committed channel is |
| SessionStatus.FreeRowAgrees | Scheduler/components/BrokerClient/index.js:532-706 | over all steps the same holds up to recounts and resets still to come and two recorded lapses |
| SessionStatus.LapsesHaveCauses | Session-API/components/WebServer/routes/api/sessions.js:724-727 | the lapses: a resume with no active channel, a failed recount, a startup reset that demotes a session with an active channel; nothing else |
| SessionStatus.CommittedUpdateSettles | Scheduler/components/BrokerClient/index.js:606-685 | a committed updateSession leaves status and channels in agreement, and the last deactivation has flipped the session to ready, unless a sweep since its count owes a recount |
| SessionStatus.EndingDeactivates | Scheduler/components/BrokerClient/index.js:105-139 | in every run the commit of autoEnd or endBotSession leaves the session terminated, with an end time and the rest of its row as it was, and every channel inactive with the owner it had; autoEnd never ends an active session |
| SessionStatus.CommittedRecountSettles | Scheduler/components/BrokerClient/index.js:556-577 | a committed recount changes no channel, and leaves the row alone or puts an active or paused session without active channel back to ready, its pause forgotten; afterwards an active or paused session has an active channel, unless another recount is owed; the reconciler does so for active sessions |
| SessionStatus.CommittedUpdateStamps | Scheduler/components/BrokerClient/index.js:649-685 | a committed updateSession moves a session between ready and active only, leaves a paused or terminated one, and stamps the start time with the first active channel |
| SessionStatus.UpdateTouchesOwnChannel | Scheduler/components/BrokerClient/index.js:632-647 | at its commit an updateSession has changed exactly its own channel: taken by an activation, freed by a deactivation of its owner; a stale deactivation never touches a channel another transcriber owns |
| SessionStatus.RunFollows | Scheduler/components/BrokerClient/index.js:57-706 | over every run `terminated` is absorbing and the start time is written once |
| SessionStatus.ReachableRows | Scheduler/components/BrokerClient/index.js:57-706 | in every reachable state the end time is set exactly when terminated, a pause time only when paused or terminated, a start time when active or paused, an active channel has an owner and, unless a reset overran an activation, a session that is active, paused or terminated |
| SessionStatus.NextKeepsInv | Scheduler/components/BrokerClient/index.js:57-706 | every step of every transaction and statement keeps the invariant behind these facts |
| SessionStatus.CommitKeepsInv | Scheduler/components/BrokerClient/index.js:606-685 | publishing staged rows and status together keeps it |
| SessionStatus.SweepDeactivates | Scheduler/components/BrokerClient/index.js:535-539 | a one-statement sweep only deactivates, and never a row an open transaction has written |
| SessionStatus.SweepTouches | Scheduler/components/BrokerClient/index.js:535-539 | a sweep deactivates just the channels it matched, and only the loss of a transcriber disowns them |
| SessionStatus.StatementsMoveOn | Session-API/components/WebServer/routes/api/sessions.js:607-727 | each single statement moves the session from one status to one other, stamps what belongs to it, and leaves channels and start time alone |
| SessionStatus.UnregisterKeepsInv | Scheduler/components/BrokerClient/index.js:532-586 | disowning a transcriber's channels is repaired by the recount that follows |
| SessionStatus.RecountDecides | Scheduler/components/BrokerClient/index.js:556-577 | the recount under the row lock flips a stuck session, paused or active |
| SessionStatus.OthersDecide | Scheduler/components/BrokerClient/index.js:80-229 | deciding to heal a stuck session or to end one keeps the invariant, which says what each may stage |
| SessionStatus.StatementKeepsInv | Session-API/components/WebServer/routes/api/sessions.js:607-658 | pause, resume, stop and the reset statements keep it |
| SessionStatus.ResetKeepsStatus | Scheduler/components/BrokerClient/index.js:700-705 | the reset's session statement strands no active channel exactly when it demotes no session that has one |
| SessionStatus.ResetOverrunsActivation | Scheduler/components/BrokerClient/index.js:687-706 | a reachable run in which it does: a stream starts between its two statements |
| SessionStatus.ResumeAgrees | Session-API/components/WebServer/routes/api/sessions.js:724-727 | resuming agrees with the channels exactly when one is active |
| SessionStatus.ResumeFindsNoStream | Session-API/components/WebServer/routes/api/sessions.js:724-727 | a reachable run, start, pause, end of stream, resume, that ends active with no active channel |
| SessionStatus.UpdateRuns | Scheduler/components/BrokerClient/index.js:606-685 | an unobstructed updateSession can always run and has the stated effect |
| SessionStatus.SessionRows.UpdateSession | Scheduler/components/BrokerClient/index.js:606-685 | channel row, then status and start time from the count that includes it |
| SessionStatus.SessionRows.UnregisterTranscriber | Scheduler/components/BrokerClient/index.js:532-577 | the transcriber's channels lose stream and owner; the session is ready when none is left active, without its pause time |
| SessionStatus.SessionRows.PauseSession | Session-API/components/WebServer/routes/api/sessions.js:683-686 | only an active session is paused, and the answer says whether it was |
| SessionStatus.SessionRows.ResumeSession | Session-API/components/WebServer/routes/api/sessions.js:724-727 | only a paused session is resumed |
| SessionStatus.SessionRows.StopSession | Session-API/components/WebServer/routes/api/sessions.js:593-627 | refused when active or paused without force, changing nothing; otherwise terminated with no active channel |
| PersistChains.OneAtATimeInOrder | Scheduler/components/BrokerClient/index.js:456-469 | over every run, with any failures and prunes, tasks of one channel run one at a time, each after all earlier ones have settled |
| PersistChains.FirstWaitingCanStart | Scheduler/components/BrokerClient/index.js:456-469 | no task is lost: the first unsettled task of a channel can start |
| PersistChains.EveryTaskCanSettle | Scheduler/components/BrokerClient/index.js:456-469 | no chain blocks: from every reachable state on all appended tasks can settle, one after the other, failures and prunes included |
| PersistChains.AppendedBehind | Scheduler/components/BrokerClient/index.js:456-463 | a task is appended once, to the chain of its channel, and can start exactly when nothing of the channel is unsettled |
| PersistChains.PruneForgetsIdleChannels | Scheduler/components/BrokerClient/index.js:463-468 | pruning removes a channel's entry only when nothing of it is unsettled |
| PersistChains.NextKeepsInv | Scheduler/components/BrokerClient/index.js:456-469 | appending, starting, settling and pruning keep the chains ordered |
| PersistChains.ChannelPersistChains.ChainChannelPersist | Scheduler/components/BrokerClient/index.js:456-463 | the new link is built on the current tail and becomes the tail |
| PersistChains.ChannelPersistChains.AfterSettled | Scheduler/components/BrokerClient/index.js:464-468 | only the tail's own entry is pruned |
| DrainBarriers.InactiveIsADrainBarrier | Transcriber/components/StreamingServer/index.js:114-128 | when the `inactive` write of a stream begins, every final of that stream has been saved or has failed, then its marker if it had a provider, and it publishes nothing more |
| DrainBarriers.EverythingIsPublished | Transcriber/components/StreamingServer/index.js:60-128 | over every run the finals published are those the providers gave, in order; every stream was announced active and every stopped one inactive |
| DrainBarriers.StopGoesThrough | Transcriber/components/StreamingServer/index.js:114-128 | in every reachable state a stop takes the stream off the channel at once, lets its provider finish, and the end of the flush publishes its marker, when it had a provider, and its deactivation; a second stop finds nothing |
| DrainBarriers.FlushKeepsOrder | Transcriber/components/StreamingServer/index.js:120-126 | flush, marker, detach, deactivate: in this order, the marker right before the deactivation |
| DrainBarriers.NextKeepsInv | Scheduler/components/BrokerClient/controllers/MqttEvents.js:27-63 | publication, in-order delivery and the chain keep the order of a stream's messages |
| Segmentation.RunConserves | Transcriber/ASR/openai_streaming/index.js:413-443 | over every sequence of deltas, ticks and stops the finals emitted, followed by the accumulated text, are the deltas that were not discarded, whitespace aside |
| Segmentation.StopLeavesNothing | Transcriber/ASR/openai_streaming/index.js:809-812 | after a stop the finals alone are those deltas |
| Segmentation.DiscardsOrphansOnly | Transcriber/ASR/openai_streaming/index.js:413-432 | a delta is dropped exactly when it is only punctuation and whitespace and nothing visible is accumulated; any other is kept and dated |
| Segmentation.SplitVisible | Transcriber/ASR/openai_streaming/index.js:660-674 | a split keeps every visible character and leaves both sides visible |
| Segmentation.TickShrinks | Transcriber/ASR/openai_streaming/index.js:521-617 | a tick that emits takes one final out and strictly shrinks the visible text |
| Segmentation.DeltaShrinks | Transcriber/ASR/openai_streaming/index.js:648-674 | so does an internal boundary |
| Segmentation.RestHasNoBreak | Transcriber/ASR/openai_streaming/index.js:627-637 | what is left of a hard split has no break point |
| Segmentation.TwoTicksDropBelowHardMax | Transcriber/ASR/openai_streaming/index.js:535-561 | hardMaxWords words drop below that bound within two ticks without new deltas |
| Segmentation.ShortTextsWait | Transcriber/ASR/openai_streaming/index.js:529-580 | under minWords a tick emits exactly when the hard silence has passed and a complete sentence reaches a soft bound: silence alone never lifts the minimum; it emits everything or changes nothing |
| Segmentation.OrdinaryTextIsEmittedWhen | Transcriber/ASR/openai_streaming/index.js:529-617 | from minWords on and under hardMaxWords a tick emits the whole text exactly when it ends a sentence and softMaxWords, the ordinary silence, or the shorter one with half of softMaxWords is reached, or the hard silence has passed on a draining stream without a delta since and the grace is over; otherwise it only starts or gives up draining |
| Segmentation.HardMaxAlwaysEmits | Transcriber/ASR/openai_streaming/index.js:533-561 | from hardMaxWords on every tick emits: up to the last sentence end followed by whitespace, keeping the rest, or everything when there is none past the first character |
| Segmentation.DeltaSplitsAtFirstBoundary | Transcriber/ASR/openai_streaming/index.js:648-675 | a delta splits the text at its first inner sentence boundary exactly when the text and the part before it have minWords, and emits nothing otherwise |
| Segmentation.ShortTextIsHeldForever | Transcriber/ASR/openai_streaming/index.js:529-580 | with the default thresholds one short delta is held however many ticks pass and however long the silence |
| Segmentation.HardSilenceEmits | Transcriber/ASR/openai_streaming/index.js:582-612 | from minWords on, three ticks past the hard silence, the last two more than the grace apart, emit, whatever the drain state |
| Segmentation.RunTiles | Transcriber/ASR/openai_streaming/index.js:275-287 | on a non-decreasing clock the finals tile the timeline: each starts where the previous one ended |
| Segmentation.FindBestBreakPoint | Transcriber/ASR/openai_streaming/index.js:627-637 | the backward loop finds the last break point, -1 for none |
| Segmentation.StreamingTranscriber.HandlePartial | Transcriber/ASR/openai_streaming/index.js:413-443 | one delta changes the object as specified |
| Segmentation.StreamingTranscriber.CheckInternalBoundary | Transcriber/ASR/openai_streaming/index.js:648-675 | the first boundary splits when both word minimums hold |
| Segmentation.StreamingTranscriber.EmitSegment | Transcriber/ASR/openai_streaming/index.js:472-492 | emits the trimmed text and starts a new segment, or does nothing |
| Segmentation.StreamingTranscriber.RunSegmentationTick | Transcriber/ASR/openai_streaming/index.js:521-618 | the priorities in order change the object as the tick specified, whose emissions the three theorems on word counts settle |
| Pacing.RunIsSound | Transcriber/ASR/openai_streaming/index.js:696-790 | over every run the audio clock times 32 is the bytes sent since start, and the retained audio is the newest, within the cap or a single buffer, nothing dropped that would have fitted |
| Pacing.EveryBufferIsSentLostOrRetained | Transcriber/ASR/openai_streaming/index.js:677-790 | over every run, whatever closes and restarts: each buffer handed to transcribe was sent, was dropped, or is retained, and one of these only; those sent keep their order across connections, the wire carries exactly these buffers and the noise between them, byte for byte, and the retained ones are the newest |
| Pacing.AudioIsSentOrRetained | Transcriber/ASR/openai_streaming/index.js:677-694 | audio on an open, armed session extends what was sent by exactly that buffer; on any other it is retained, or sent after what was retained when it arms the session; only audio beyond the cap is dropped |
| Pacing.ConfiguringFlushes | Transcriber/ASR/openai_streaming/index.js:163-219 | the configuration of an open session arms it once and sends everything retained, in order |
| Pacing.ConnectionsStartOver | Transcriber/ASR/openai_streaming/index.js:296-345 | a connection starts over unarmed and without a clock, keeping the retained audio |
| Pacing.ChunksPreserve | Transcriber/ASR/openai_streaming/index.js:701-710 | chunking preserves the byte stream, in appends of at most 200 ms |
| Pacing.ArmingSendsRetained | Transcriber/ASR/openai_streaming/index.js:198-219 | arming sends all retained audio in order |
| Pacing.TickClosesLag | Transcriber/ASR/openai_streaming/index.js:740-754 | injected silence never drives the lag below zero, and brings it within the threshold exactly when it was within one fill of it |
| Pacing.ArmingKeepsUp | Transcriber/ASR/openai_streaming/index.js:198-219 | arming leaves the audio timeline level with the clock or ahead of it |
| Pacing.LagStaysBounded | Transcriber/ASR/openai_streaming/index.js:740-754 | over every run, from the event that arms the session on, as long as it stays open and ticks are at most 2000 - keepalive ms apart: the lag after every tick is at most the keepalive threshold |
| Pacing.ExcessIsLeast | Transcriber/ASR/openai_streaming/index.js:775-783 | the loop drops no more than needed and keeps the newest buffer |
| Pacing.DropOldest | Transcriber/ASR/openai_streaming/index.js:779-783 | the while loop drops that many and keeps the byte count right |
| Pacing.AppendChunks | Transcriber/ASR/openai_streaming/index.js:701-710 | the while loop sends the buffer in its chunks |
| Pacing.AudioPump.SendAudio | Transcriber/ASR/openai_streaming/index.js:696-713 | anchors the clock on the first audio, sends the buffer and advances the clock |
| Pacing.AudioPump.BufferPreArm | Transcriber/ASR/openai_streaming/index.js:775-783 | one more buffer is retained within the bound |
| Pacing.AudioPump.Arm | Transcriber/ASR/openai_streaming/index.js:198-226 | arms once and flushes the retained audio, buffer by buffer |
| Pacing.AudioPump.Transcribe | Transcriber/ASR/openai_streaming/index.js:677-694 | sends the buffer, or retains it and tries to arm |
| Pacing.AudioPump.RunPacingTick | Transcriber/ASR/openai_streaming/index.js:740-754 | sends the silence specified and says how much |
| TranscriberStreams.FramesStayInOrder | BotService/bot/TranscriberStream.js:61-197 | over every run of frames, acks, closes and swaps, frames sent then frames buffered are in production order, the buffer holds the newest frames within its bound, and every frame is sent, buffered, dropped or lost |
| TranscriberStreams.LossesHaveCauses | BotService/bot/TranscriberStream.js:165-168 | frames are lost exactly when a ready stream's socket is no longer open, or an ack comes from a socket that is not open |
| TranscriberStreams.FrameIsSentOrBuffered | BotService/bot/TranscriberStream.js:165-180 | in every state kept by the steps: a frame is dropped exactly when one arrives on a stream that is not ready with a full buffer, and it is the oldest; the new one is sent or buffered |
| TranscriberStreams.HandshakeFlushes | BotService/bot/TranscriberStream.js:61-82 | once a socket opens and the server acknowledges, everything buffered is sent in order and the socket is ready |
| TranscriberStreams.CourteousRunsConserve | BotService/bot/TranscriberStream.js:165-197 | when acks come from open sockets that stay open until their close event, produced = sent + buffered + dropped |
| TranscriberStreams.NextKeepsInv | BotService/bot/TranscriberStream.js:61-197 | every event of every socket keeps order and counts |
| TranscriberStreams.TranscriberStream.SendAudio | BotService/bot/TranscriberStream.js:165-180 | sends, or buffers dropping the oldest, on the shared buffer object |
| TranscriberStreams.TranscriberStream.OnAck | BotService/bot/TranscriberStream.js:65-79 | the flush loop sends the shared buffer in order and empties it |
| TranscriberStreams.BotRecord.OpenSocket | BotService/components/BrokerClient/index.js:284-293 | a swap hands the same buffer, untouched, to a fresh stream |
| AudioMixers.QueueConserves | BotService/bot/AudioMixer.js:93-107 | for all add and mix sequences a participant's queue holds the newest samples written, within the ring, and written = drained + dropped + available |
| AudioMixers.QueueIsTight | BotService/bot/AudioMixer.js:93-107 | after any uses, samples are dropped only on overflow and only as many as do not fit; a tick takes one whole frame when there is one |
| AudioMixers.Ring.Put | BotService/bot/AudioMixer.js:93-106 | one sample into the ring is one sample into a bounded drop-oldest queue, wrap-around included |
| AudioMixers.Ring.AddAudio | BotService/bot/AudioMixer.js:93-107 | the sample loop refines the queue and counts the samples it overwrote |
| AudioMixers.Ring.TakeFrame | BotService/bot/AudioMixer.js:142-149 | a mix tick takes the 320 oldest samples in order |
| AudioMixers.MixIsExact | BotService/bot/AudioMixer.js:145-146 | a mixed sample is the exact sum whenever no partial sum leaves the 16-bit range |
| AudioMixers.OrderMattersWhenSaturated | BotService/bot/AudioMixer.js:145-146 | otherwise the result depends on the order of participants |
| AudioMixers.MixInto | BotService/bot/AudioMixer.js:142-148 | the inner loop adds one frame with saturation and measures its energy |
| AudioMixers.MixFrames | BotService/bot/AudioMixer.js:137-157 | the frames it is given are mixed in order, and the dominant one is the first of the loudest above the threshold |
| AudioMixers.ContributorsAreAll | BotService/bot/AudioMixer.js:137-139 | the contributors are all participants with a whole frame, in order |
| AudioMixers.TakeFrames | BotService/bot/AudioMixer.js:137-149 | each participant with a whole frame gives up its oldest one, the others are skipped and keep everything |
| AudioMixers.MixAndEmit | BotService/bot/AudioMixer.js:129-171 | a tick over all rings: nothing is emitted exactly when nobody has a whole frame; otherwise the mix of every contributor's oldest frame, with its dominant one |
| AudioMixers.TransitionsAreOrdered | BotService/bot/AudioMixer.js:174-201 | over every run speaker transitions carry strictly increasing positions |
| AudioMixers.TransitionsAreReal | BotService/bot/AudioMixer.js:174-201 | each transition changes the speaker; to silence only after the grace period of quiet ticks with more than one participant |
| AudioMixers.SpeakerFollowsDominance | BotService/bot/AudioMixer.js:174-210 | over every run: the speaker after a turn is the dominant participant, announced when new; nobody, announced, when the quiet ticks complete the grace period in a call of several; nobody, unannounced, when the speaker leaves; and otherwise the same |
| AudioMixers.SilentChangesAreLeaves | BotService/bot/AudioMixer.js:204-210 | the speaker changes without a transition exactly when the current speaker leaves |
| AudioMixers.SpeakerState.UpdateSpeaker | BotService/bot/AudioMixer.js:174-197 | one tick updates speaker, silence and clock as specified |
| AudioMixers.SpeakerState.RemoveParticipant | BotService/bot/AudioMixer.js:204-210 | only the current speaker's departure clears it |
| BrowserPools.CapacityHolds | BotService/bot/BrowserPool.js:91-151 | over every interleaving registered contexts and reservations stay within the capacity, and reservations equal the creations in flight, so every exit gives its slot back |
| BrowserPools.OpenContextsAreBounded | BotService/bot/BrowserPool.js:130-160 | over every run the contexts really open, those being closed aside, stay within the capacity up to the leaked ones, and none leaks when no creation registers over an open context of its id and no browser's end clears one still open |
| BrowserPools.LeaksHaveCauses | BotService/bot/BrowserPool.js:66-77 | exactly these two steps leak a context |
| BrowserPools.TidyRunsLeakNothing | BotService/bot/BrowserPool.js:130-160 | a run without such a step leaks nothing |
| BrowserPools.OverlappingCreationsOverflow | BotService/bot/BrowserPool.js:95-145 | a reachable run of a pool of two that ends with three contexts open and nothing in flight: two overlapping creations of one id, then one of another |
| BrowserPools.OneLaunchInFlight | BotService/bot/BrowserPool.js:51-83 | at most one launch is in flight, the one later calls wait for |
| BrowserPools.IdlePoolHasRoom | BotService/bot/BrowserPool.js:106-111 | a pool at rest has no reservation and accepts a new context exactly when it is not full |
| BrowserPools.RefusedWhenFull | BotService/bot/BrowserPool.js:92-110 | a creation is refused exactly when the pool is destroyed or full |
| BrowserPools.DestroyEmptiesThePool | BotService/bot/BrowserPool.js:162-184 | over every run in which no destroy is called during another, with creations, crashes and launches in flight: the step that ends a destroy leaves no context registered and no browser, and until then only contexts still to be closed are registered |
| BrowserPools.RemovalIsExact | BotService/bot/BrowserPool.js:95-98 | destroying or replacing a context takes just its entry out and closes it |
| BrowserPools.LaunchesWhenNeeded | BotService/bot/BrowserPool.js:51-83 | a launch starts exactly when there is neither a live browser nor a launch in flight; a live browser is used at once |
| BrowserPools.DeathClearsThePool | BotService/bot/BrowserPool.js:66-77 | a dead browser takes its contexts with it, and its event clears the pool when it is the current one and changes nothing otherwise |
| BrowserPools.NextKeepsInv | BotService/bot/BrowserPool.js:47-184 | every stretch between two awaits keeps slots and launches consistent |
| BrowserPools.CreationKeepsInv | BotService/bot/BrowserPool.js:113-150 | a creation that resumes keeps its slot or gives it back, on every path |
| BrowserPools.DrainKeepsInv | BotService/bot/BrowserPool.js:162-183 | each stretch of destroy keeps the counts while creations are in flight |
| BrowserPools.BrowserPool.CreateContext | BotService/bot/BrowserPool.js:91-115 | up to its first await a creation is refused, replaces, or reserves a slot |
| BrowserPools.BrowserPool.AfterBrowser | BotService/bot/BrowserPool.js:117-128 | without a browser, or destroyed, the slot is given back |
| BrowserPools.BrowserPool.AfterPage | BotService/bot/BrowserPool.js:134-150 | the context is registered and the slot released, unless the pool was destroyed |
| BrowserPools.BrowserPool.OnDisconnected | BotService/bot/BrowserPool.js:66-77 | the current browser's end clears the pool, a former one's does not |
| SessionSnapshots.EventsTellStatus | Transcriber/components/BrokerClient/index.js:46-105 | over any sequence of snapshots each session's events alternate starting with paused, say paused exactly when the latest snapshot does, and the list holds exactly the latest sessions |
| SessionSnapshots.NextKeepsSynced | Transcriber/components/BrokerClient/index.js:46-86 | one snapshot keeps what consumers believe equal to what is remembered, vanished paused sessions included |
| SessionSnapshots.NextListsLatest | Transcriber/components/BrokerClient/index.js:88-103 | the filtered and updated list holds exactly the snapshot's sessions |
| SessionSnapshots.MergedHolds | Transcriber/components/BrokerClient/index.js:94-103 | update-or-add lists every session as the snapshot has it, and nothing twice |
| SessionSnapshots.ChangesAreListed | Transcriber/components/BrokerClient/index.js:46-86 | a snapshot raises events about its own sessions only, at most one each |
| SessionSnapshots.MergedKeepsPlaces | Transcriber/components/BrokerClient/index.js:94-103 | sessions already listed keep their places, new ones follow |
| SessionSnapshots.BrokerClient.HandleSessions | Transcriber/components/BrokerClient/index.js:46-105 | the loops of the method compute the specified events, statuses and list |
| SessionSnapshots.FilterPresent | Transcriber/components/BrokerClient/index.js:91-91 | keeps the listed sessions, in order |
| SessionSnapshots.Merge | Transcriber/components/BrokerClient/index.js:94-103 | the loop updates in place or appends |
| SegmentIds.IdsIncrease | Transcriber/components/StreamingServer/index.js:171-182 | over every run whose starts know the last id, across stops and restarts, the ids of canonical finals strictly increase |
| SegmentIds.IdsAreConsecutive | Transcriber/ASR/index.js:227-290 | a stream numbers its canonical finals one by one from the id it starts with, and nothing else takes a number |
| SegmentIds.NextStreamContinues | Transcriber/components/StreamingServer/index.js:171-182 | the next stream goes on after the counter a stop preserved; after a crash or a clear, after the snapshot's id, or from one |
| SegmentIds.StartIsFresh | Transcriber/components/StreamingServer/index.js:171-177 | a stream numbers afresh exactly when the cursor is remembered or the snapshot knows every id used |
| SegmentIds.OthersStayFresh | Transcriber/ASR/index.js:227-290 | no result, error, stop or clear reuses an id |
| SegmentIds.SecondaryJoinsPrimary | Transcriber/ASR/index.js:152-158 | a secondary result takes the segment of the latest primary one and opens none |
| SegmentIds.Asr.SegmentIdFor | Transcriber/ASR/index.js:152-158 | the counter's answer and its new state |
| SegmentIds.StreamingServer.ResolveInitialSegmentId | Transcriber/components/StreamingServer/index.js:171-177 | memory first, then the snapshot, then 1; the remembered cursor is consumed |
| SegmentIds.StreamingServer.PreserveSegmentId | Transcriber/components/StreamingServer/index.js:179-182 | the channel's cursor is one past the counter, others unchanged |
| Text.EraseStrip | TranslatorPython/translator/assembler.py:97-97 | stripping changes no visible character and leaves nothing exactly when there was none |
| Text.StripIsMiddle | TranslatorPython/translator/assembler.py:97-97 | stripping takes whitespace off the two ends and nothing from between |
| Text.EraseWords | TranslatorPython/translator/pipeline.py:568-572 | a text's words are its visible characters, in order |
| Text.WordsSum | TranslatorPython/translator/pipeline.py:568-572 | the words on the two sides of a whitespace character are found independently |
| Text.WordsOfJoin | TranslatorPython/translator/pipeline.py:568-572 | joining words with spaces and splitting again gives them back |
| Text.WordsMayDiffer | TranslatorPython/translator/pipeline.py:560-572 | equal visible characters do not mean equal words, so conservation is not word-wise |
| Text.EraseJoin | TranslatorPython/translator/pipeline.py:172-179 | joining with spaces adds no visible character |
| Text.JoinExtends | TranslatorPython/translator/pipeline.py:172-179 | joining more parts only extends the text |
## Left out

- The pipeline's tables (`_channels`, `_states`) and its final tasks are values of a transition system; only the key state they share is an object, so aliasing between tasks is modelled by key-state identities.
- Eco mode (`translate_partials = False`), shutdown and statistics: they send and publish no more than the modelled steps.
- The idle-state reaper: it forgets key states, so that their freezes are no longer published and their finals are retranslated whole, and purges their keys, with the effect on locks that `ProviderAccess.PurgeDetaches` states. It also forgets channels, on a stamp of their own: a channel may go while its key states stay, and a fresh assembler then meets their old frozen translations.
- A target language listed twice for one channel: targets are a set.
- `asyncio` lock waiters are served in order as its documentation says; semaphore waiters in any order.
- Text positions count characters as Dafny's `char` does; JavaScript counts UTF-16 units, which agree for all the punctuation and whitespace the code looks at.
- The session rows of other sessions, session creation and deletion, and `PUT`/`PATCH /sessions/:id`, which copy request fields onto rows.
- The polling loop of `/stop?waitFinal=true`: only its two updates and their order.
- `reconcileStuckSessions` is modelled from its locked transaction on; its idle-time filter only makes it run less often.
- Deadlock detection and retries of the database: a transaction may be rolled back at any point.
- The Transcriber's stop sequence is a transition system of one channel's streams; a new stream of the same channel may start while an old one is still flushing, but the order proved is that of each stream on its own.
- A stream whose provider was never created publishes no marker; its deactivation still follows all its finals.
- Text that arrives between a stop and the restart of the streaming transcriber is dropped by `start()`; protocols with server-side finals, language detection and the watchdog are not part of this model.
- Segment bounds are exact milliseconds and the audio clock an exact rational; floating-point rounding is not modelled. Energies are compared without the square root.
- The dither noise of the silence pump is arbitrary bytes of the right length; only the vLLM arming order is modelled.
- The map from participant ids to rings, names and arrival timestamps of the mixer: a tick is modelled on the rings in their order of arrival, and adding audio on one ring.
- `BrowserPools` names contexts and browsers by number; a call may still be answered by a browser that is being closed, and pages are not counted.
- Control messages, the acknowledgement watchdog and the reconnection backoff of the bot: they send no audio and only decide when sockets are swapped.
- Provider SDK adapters, MQTT, WebSocket, SRT, RTMP, ffmpeg and Playwright calls, the database driver, Express plumbing and configuration loading.
- Bot service selection, health checks, `SpeakerTracker`, the circular buffer and the language-detection window: easier members that repeat the ideas above.
- Pipelines.FinalCostIsLinear: live tails that were superseded or not reused, and freezes overtaken by a reset, are sent as well and not counted.
- Segmentation.TwoTicksDropBelowHardMax: needs the minimum word count to be at most the hard maximum and the hard maximum to be at least one; otherwise a tick may keep the text.
- TranscriberStreams.FramesStayInOrder: for a buffer of at least one frame, as deployed; with a negative bound the source would count drops from an empty buffer.
