# A verified model of the tutor's services

This project models, in Dafny, the parts of the system that keep state: how a completed session
reaches its grade, how live audio and text move through buffers, queues and detectors, and the
algorithms that measure and split transcripts. `dafny verify dfyconfig.toml` checks all of it.

## What is modelled

**Completion, outbox, broker, grader** (`CompletionProtocol` and the `Completion*` modules around
it, on top of `GradingRows`, `Outbox` and `GradingJob`). A labelled transition system with one step
per await. The gateway completes a session and inserts its outbox row in one transaction, then
publishes, possibly twice and possibly without learning that the broker accepted. Any number of
relays claim, publish, commit or roll back. Any number of consumers deliver, run a job await by
await, retry, settle, lose their connection or crash. Any number of scanners run the same job. Every
database call may succeed, fail without effect, or fail after its statement took effect. Theorems
hold for all runs from an empty system. The sequential code (`GradingJob.Worker`, the repository
and outbox classes) is imperative and proved against the functions that the transition system
uses; `CompletionRefinement` shows that the retry loop is one of the system's runs.

**Realtime media** (`AudioBuffer`, `InferenceQueue`, `VoiceActivity`, `PhraseSegmenter`,
`OutboundTrack`, `ReplyStream`, `ReplyParsing`). Each class updates its fields in place; its methods
are proved equal to a step function, and the results are about all sequences of steps.

**Algorithms** (`WordErrorRate`, `MixedLanguage`, `Repetitions`, `StudentWords`).

## What the proofs found

- The README of the repository says duplicates do not grade twice (README.md:22-31). That is so
  exactly if at most one process grades (`GradedOnceExactlyWhenAlone`). With two, consumers or
  scanners, the final upsert has no guard, and a graded row's content is replaced
  (`OverlapGradesTwice`). The status stays graded in every case (`GradedIsAbsorbing`).
- A row can stay in processing with no message behind it, and the scanner does not look at such
  rows. `UncleanExactlyWhenForsaken` and `StrandsExactlyWhenAbandoned` say exactly when: a
  ValidationError whose recording failed, or a session that was deleted, or completed again with a
  verdict that refuses it, after its row had been marked; and no duplicate of the message waiting
  (`ValidationErrorStrands`, `DeletionStrands`, `RefusalStrands`).
- A feedback marker that arrives in pieces leaves the reply repeated or too long on the screen, and
  so does a reply whose upper case is longer than the reply, since the marker is looked for in the
  upper-cased text and cut at that place in the original (`LongUpperCaseShowsMarker`).
  `ExactUnlessTorn` and `StreamedReplyIsParsedReply` say exactly when; then every later token shows
  the whole reply once more (`TornRepeats`).
- On a full phrase queue a flush can put the rest of a text before phrases drained earlier
  (`FlushOvertakes`), and so can another reply that feeds at the same time (`RepliesOvertake`). A
  reply or a timer that is cancelled while it waits loses what it had still to put
  (`CancelledFeedLoses`, `CancelledTimerLoses`). `OrderExactlyUnlessOvertaken` says exactly when
  order and text are kept.
- A frame that barges in waits inside its handling while later frames are heard, and is then
  appended behind them (`LateFrameIsOutOfOrder`). `UtteranceIsFramesUnlessResumed` says exactly when
  the utterance is one piece of the input.
- The bound on utterance length needs a pre-roll shorter than the maximum plus the silence timeout,
  and exactly that (`BoundNeedsShortPreRoll`).
- The drop-one and queue-full branches for finals cannot be reached at any queue size
  (`OfferOutcome`), nor can the queue-full branch of the track's close, nor the second Vietnamese
  test on an extracted run (`RunsAreFree`); the strong-attempt test accepts no run that the plain
  evidence test does not (`ExtractableMeans`), and the shares of common words that both ask for
  decide nothing (`EvidenceMeans`).
- Clearing the outgoing track does not stop a producer that a full queue has held up, nor a receive
  that sleeps with a packet in hand: both are still heard, and nothing else is (`ClearSilences`).
  Nor does closing it, for a listener that goes on receiving after the end marker (`CloseSilences`).
- The gate decodes events that are JSON strings and the input builder does not, so the two counts
  can differ; `CountsAgree` says exactly when. The API and the worker can contradict each other over
  an event whose type is not spelled exactly or whose English segment is blank, and over no other
  (`NoContradictionExactlyWhenNothingHidden`, `BlankSegmentDivides`).

## Assumptions

The broker is durable and redelivers what was not settled. Payloads that parse name an existing
session; everything else is one kind of malformed message, which is rejected. A session's
eligibility verdict is fixed when its log is committed. Grader answers, clocks, voice decisions per
frame, random ids and the settings are inputs. Unicode tables and Python's `str`, `upper`, `lower`
and JSON decoding are parameters, with what is used of them stated in each module's `Sane`
predicate. Word lists are parameters. The evaluation input of an eligible log is assumed to validate.

## Model

| member | source | states |
|---|---|---|
| `CompletionSafety.NoCompletionLost` | services/core-api/src/ten_ext/luve_extension.py:3421-3480 | In every state reachable from an empty system, by any interleaving of gateway, relays, consumers and scanners with crashes, rollbacks, lost connections, unconfirmed publishes and duplicates, each committed completion has an outbox row that is pending with attempts left, or failed at the cap, or published with its message still in the broker's care or its session gone, skipped, or with a result row of any status |
| `CompletionSafety.StepKeeps` | services/grading-worker/src/worker.py:314-467 | The inductive invariant behind it: rows and messages name committed completions, each stage of a job has the rows it relies on, relay transactions hold disjoint pending rows, every publish they confirmed is accounted for |
| `CompletionSafety.DeliveredIsStable` | services/grading-worker/src/worker.py:443-467 | No step of anyone makes a delivered completion undelivered: a message leaves the broker's care only by an ack or reject, and then the session has a row, a skip, or is gone |
| `CompletionSafety.RelayKeeps` | services/grading-worker/src/worker.py:314-344 | A relay's claim, publish, commit and rollback keep the invariant while other relays hold other rows |
| `CompletionOutcomes.SettledAtMostOnce` | services/grading-worker/src/worker.py:443-467 | No delivery is ever settled twice, and whatever was acknowledged or rejected is for a session with a result row, a skip row, or deleted |
| `CompletionOutcomes.OutboxKeeps` | services/grading-worker/src/outbox_repository.py:20-51 | Outbox rows never vanish, published and failed never revert, attempts never decrease |
| `CompletionOutcomes.GradedIsAbsorbing` | services/grading-worker/src/grading_repository.py:160-311 | Once graded, a session stays graded under every interleaving of consumers and scanners, and its row shows the last grading written for it |
| `CompletionOutcomes.NeverGradedAndSkipped` | services/grading-worker/src/worker.py:168-202 | While repeated completions of a session carry the same verdict, no session is both graded and recorded as skipped |
| `CompletionSolo.SoloGradesExactlyOnce` | services/grading-worker/src/worker.py:157-248 | With one consumer and no scanner: however many duplicates, crashes and redeliveries, one grading is written for a graded session and none for another, and its content never changes afterwards |
| `CompletionSolo.AckMeansAnswered` | services/grading-worker/src/worker.py:394-440 | A consumer about to acknowledge leaves its session graded, failed, skipped or gone |
| `CompletionOverlap.GradedOnceExactlyWhenAlone` | services/grading-worker/src/worker.py:157-248 | From every initial state: duplicates never grade a session twice, in any run, iff there is at most one consumer or scanner in all |
| `CompletionOverlap.OverlapGradesTwice` | services/grading-worker/src/grading_repository.py:233-311 | For any two graders, consumers or scanners, in any initial state and any two results: a run that writes both gradings and replaces the graded row's content |
| `CompletionOverlap.AloneGradesOnce` | services/grading-worker/scripts/reconciliation_scanner.py:172-347 | A lone scanner, too, grades each session once at most, whatever it scans and however it stops |
| `CompletionStranding.StrandedExactlyWhenForsakenRun` | services/grading-worker/src/worker.py:394-467 | One consumer: throughout a run a row in processing has its message queued or unacknowledged iff no delivery takes one of the forsaking branches below and is then settled, before any crash, while no duplicate waits |
| `CompletionStranding.NeverStrandedExactlyWhen` | services/grading-worker/src/worker.py:443-467 | Equivalently: iff no delivery is acknowledged or rejected over such a row while no duplicate waits |
| `CompletionStranding.StrandsExactlyWhenAbandoned` | services/grading-worker/src/worker.py:443-467 | Of all steps of all actors exactly that settlement strands a row |
| `CompletionStranding.UncleanExactlyWhenForsaken` | services/grading-worker/src/worker.py:163-235 | The branches that lead there, exactly: a ValidationError whose recording failed, or a job that finds its session gone, or refuses it, after the row was marked |
| `CompletionStranding.StrandedExactlyWhenForsaken` | services/grading-worker/src/worker.py:394-467 | For an await that ends a delivery and its settlement, by ack or reject: the row is stranded iff the await took one of these branches and no duplicate waits |
| `CompletionStranding.ProcessingIsBacked` | services/grading-worker/src/worker.py:394-467 | A run in which no await takes one of these branches for a session leaves its row out of processing or its message in the broker's care |
| `CompletionStranding.PublishedIsQueuedOrAnswered` | services/grading-worker/src/worker.py:443-467 | And then a published completion is in the broker's care or graded, failed, skipped or gone |
| `CompletionStranding.ValidationErrorStrands` | services/grading-worker/src/worker.py:213-235 | A concrete run: the answer fails validation, recording that fails, the rejected row stays in processing |
| `CompletionStranding.DeletionStrands` | services/grading-worker/src/worker.py:163-166 | A concrete run: a crash and a deletion, every call succeeding |
| `CompletionStranding.RefusalStrands` | services/grading-worker/src/worker.py:173-194 | A concrete run: a crash and a second completion whose verdict refuses the session |
| `CompletionProgress.DrainsAreBounded` | services/grading-worker/src/worker.py:314-344 | Over any run the rows settled by committed drains plus the attempts left never exceed the attempts there were plus those that new completions brought |
| `CompletionProgress.OutboxEmpties` | services/grading-worker/src/worker.py:347-391 | Without new completions, once committed drains have settled as many rows as there were attempts, nothing is pending any more |
| `CompletionProgress.FinitelyManyDrains` | services/grading-worker/src/worker.py:347-391 | Without new completions there are never more committed non-empty drains than attempts left, and that many leave nothing pending |
| `CompletionProgress.ClaimFindsWork` | services/grading-worker/src/outbox_repository.py:20-27 | A claim is non-empty exactly when some pending row is not locked by another relay |
| `CompletionProgress.ClaimExists` | services/grading-worker/src/outbox_repository.py:54-61 | Whatever rows and locks there are, a claim of the oldest free pending rows within the limit exists |
| `CompletionRefinement.UninterruptedDelivery` | services/grading-worker/src/worker.py:394-440 | The retry loop, as a whole, is one of the runs of the transition system: same tables, same settlement |
| `CompletionRefinement.RetriesAreARun` | services/grading-worker/src/worker.py:408-440 | The same for the loop from any number of attempts left |
| `GradingJob.Worker.Step` | services/grading-worker/src/worker.py:157-248 | One await of a job: what its statement did to the tables in each of its three outcomes, and where control goes |
| `GradingJob.Worker.ProcessSessionCompletedJob` | services/grading-worker/src/worker.py:157-248 | The job's loop over awaits ends with the tables and verdict of the reference run of its script |
| `GradingJob.Worker.ProcessPayloadWithRetries` | services/grading-worker/src/worker.py:394-440 | The attempt loop and the last failing write end with the tables and settlement of the reference recursion |
| `GradingJob.DeliveryOutcome` | services/grading-worker/src/worker.py:394-440 | Whichever calls fail, before or after taking effect: an acknowledged message's session is answered, at most one grading is added, none to a graded session, and one added leaves the row graded |
| `GradingJob.VerdictMeans` | services/grading-worker/src/worker.py:221-248 | A job returns iff no await in it went wrong, and raises a ValidationError iff the grading did; a failure that was recorded is raised all the same |
| `GradingJob.ReturnedMeans` | services/grading-worker/src/worker.py:157-248 | A job that returns leaves its session gone, skipped or graded |
| `GradingJob.GoodJob` | services/grading-worker/src/worker.py:157-248 | A job in which nothing goes wrong: nothing for a session gone, a skip for one refused, nothing for one graded, and otherwise one grading, the one answered |
| `GradingJob.SettlementMeans` | services/grading-worker/src/worker.py:394-440 | All attempts but the last raised; rejected iff the last raised a ValidationError; given back iff all allowed attempts raised and the last write failed; acknowledged iff the last returned or all raised and that write was done |
| `GradingJob.AckAfterAllAttempts` | services/grading-worker/src/worker.py:394-440 | A message acknowledged over a session present, not skipped and not graded has had all its attempts, each of which raised, and its row is failed |
| `CompletionAttempts.SettledAfterAllAttempts` | services/grading-worker/src/worker.py:394-440 | The same in every run of the whole system, whatever others do: a consumer acknowledges an unsettled session, marks it failed at the end or gives its message back only after its delivery has made every attempt allowed and each has raised; attempts are numbered by those that ended |
| `CompletionOverlap.GradableGetsGraded` | services/grading-worker/src/worker.py:157-248 | From any state, an idle consumer with the message of an eligible ungraded session, or a resting scanner that finds it without a row or failed, has a run that grades it with whatever is answered |
| `CompletionOverlap.ScannerLeavesRunningJobs` | services/grading-worker/scripts/reconciliation_scanner.py:172-347 | No scan includes a session that is graded, in processing or gone |
| `GradingJob.JobStepGrows` | services/grading-worker/src/worker.py:157-248 | A job reads sessions only, touches only its own session's rows, and never un-grades a row |
| `GradingRows.GradedExactlyWhenWritten` | services/grading-worker/src/grading_repository.py:160-311 | After any sequence of the three writes a session is graded iff it was before or one of them was a grading, and it shows the last one |
| `GradingRows.GradingRepository.MarkGradingProcessing` | services/grading-worker/src/grading_repository.py:160-193 | Inserts or updates the row unless graded, clears the error, reports whether it may proceed; other rows unchanged |
| `GradingRows.GradingRepository.MarkGradingFailed` | services/grading-worker/src/grading_repository.py:195-231 | Inserts or updates the row unless graded: failed, with the message cut at 500 characters and the attempts and provider stated; other rows unchanged |
| `GradingRows.GradingRepository.UpsertGradingResult` | services/grading-worker/src/grading_repository.py:233-311 | Writes the grading unconditionally |
| `GradingRows.SkipLogHoldsLatest` | services/grading-worker/src/grading_repository.py:127-158 | After any sequence of skips a session has a row iff it had one or was skipped, and it holds the last skip, or else the one before |
| `Outbox.OutboxTable.RelayDrainOnce` | services/grading-worker/src/worker.py:314-344 | The loop over claimed rows commits the drained table and returns the number of confirmed publishes |
| `Outbox.OutboxTable.EnqueueSessionEvent` | services/core-api/src/services/outbox_repository.py:24-51 | Inserts a pending row stamped with the time of the call or, if there is one, changes nothing; other rows unchanged |
| `Outbox.OutboxTable.MarkSessionEventPublished` | services/grading-worker/src/outbox_repository.py:64-66 | The row becomes published, keeping its attempts and its place; no other row changes; the attempts left overall do not grow |
| `Outbox.OutboxTable.MarkSessionEventRetryOrFailed` | services/grading-worker/src/outbox_repository.py:69-81 | One more attempt; failed iff that reaches the cap, else pending in its old place; no other row changes; the attempts left overall shrink |
| `Outbox.DrainedPointwise` | services/grading-worker/src/worker.py:326-344 | A drain moves each claimed row once, by its own publish outcome, and no other row |
| `Outbox.DrainSpendsBudget` | services/grading-worker/src/worker.py:314-344 | A committed drain of n rows lowers the attempts left over all pending rows by at least n |
| `InferenceQueueing.OfferOutcome` | services/core-api/src/ten_ext/luve_extension.py:974-1060 | A final displaces waiting partials, is lost only if another final waits, and never reaches the drop-one or queue-full-final branches, at any queue size |
| `InferenceQueueing.PartialPutExactlyWhen` | services/core-api/src/ten_ext/luve_extension.py:974-1024 | A partial is put, last, iff it has audio, the recogniser is not busy, no final waits and there is room; otherwise, and for a job without audio, nothing changes |
| `InferenceQueueing.JoinMeansIdle` | services/core-api/src/ten_ext/luve_extension.py:1062-1072 | In every reachable state the unfinished count is zero iff nothing is queued or in flight, and the queue holds at most its size |
| `InferenceQueueing.FinalsConserved` | services/core-api/src/ten_ext/luve_extension.py:974-1072 | Every final that was put has been consumed or still waits, in the order put |
| `InferenceQueueing.InferenceQueue.EnqueueInferenceJob` | services/core-api/src/ten_ext/luve_extension.py:974-1024 | The method with its early returns and its two chances to find the queue full ends in the state and branch of the reference |
| `InferenceQueueing.InferenceQueue.DropQueuedPartials` | services/core-api/src/ten_ext/luve_extension.py:1031-1052 | Keeps the finals in order and marks one job done per partial dropped |
| `VoiceActivity.RunInv` | services/core-api/src/ten_ext/luve_extension.py:676-777 | Not speaking means no utterance; while speaking, utterance minus trailing silence is below the maximum and trailing silence below the timeout, over every sequence of frames, suspended and resumed frames, flushes, assistant turns and resets |
| `VoiceActivity.StepOk` | services/core-api/src/ten_ext/luve_extension.py:676-777 | Every step of the detector, a suspended frame going on included, keeps the invariant; every partial is the window-long suffix of the utterance; every final is all of it |
| `VoiceActivity.SilenceMeans` | services/core-api/src/ten_ext/luve_extension.py:742-777 | A frame of silence ends an utterance iff it brings the trailing silence to the timeout; then exactly the whole utterance is emitted as a final iff enough of it is speech, and nothing otherwise |
| `VoiceActivity.SpeechMeans` | services/core-api/src/ten_ext/luve_extension.py:696-745 | Speech is only counted below the onset's number of frames in a row; else a partial is emitted iff due with enough audio and speech, and a final of all iff the maximum is reached |
| `VoiceActivity.OthersMean` | services/core-api/src/ten_ext/luve_extension.py:779-800 | No other event emits anything but a flush or an end of the utterance in progress, and none but these, a suppression and a reset ends it |
| `VoiceActivity.SuspendedMeans` | services/core-api/src/ten_ext/luve_extension.py:689-695 | Speech that arrives while the assistant speaks is suspended iff barge-in is enabled; it goes on once, and only after the assistant was marked silent on its account |
| `VoiceActivity.UtteranceIsRecognised` | services/core-api/src/ten_ext/luve_extension.py:651-777 | In any run an utterance in progress that is over later was emitted, all that had been heard since, by the final that ended it, unless it was suppressed, the session was reset, or the silence at its end found too little speech |
| `VoiceActivity.OnsetTakesFramesInARow` | services/core-api/src/ten_ext/luve_extension.py:696-705 | From silence, exactly the configured number of speech frames in a row opens an utterance; fewer are only counted |
| `VoiceActivity.SpeechMsReaches` | services/core-api/src/ten_ext/luve_extension.py:957-964 | The speech time reaches a threshold iff speech frames times bytes reach it times frames, at 32 bytes a millisecond |
| `VoiceActivity.FinalsAreBounded` | services/core-api/src/ten_ext/luve_extension.py:651-777 | Every final in any run is non-empty and shorter than maximum plus timeout plus its closing frame, for a pre-roll shorter than maximum plus timeout |
| `VoiceActivity.BoundNeedsShortPreRoll` | services/core-api/src/ten_ext/luve_extension.py:701-731 | That limit on the pre-roll is necessary as well: the bound holds on all runs iff it holds |
| `VoiceActivity.PreRollIsRecentAudio` | services/core-api/src/ten_ext/luve_extension.py:891-895 | The pre-roll is always the last min(total, cap) bytes received since the session reset |
| `VoiceActivity.UtteranceIsOnsetOn` | services/core-api/src/ten_ext/luve_extension.py:683-735 | From its onset on the utterance is the pre-roll at that moment followed by all that is heard since in the order heard, the onset frame included, which is thus there twice |
| `VoiceActivity.UtteranceIsFramesUnlessResumed` | services/core-api/src/ten_ext/luve_extension.py:683-735 | While the assistant is silent that is every frame from the onset frame on, in order, iff no frame suspended in the barge-in handling goes on in between |
| `VoiceActivity.LateFrameIsOutOfOrder` | services/core-api/src/ten_ext/luve_extension.py:689-707 | A concrete run in which the frame that barged in is appended behind two that came after it |
| `VoiceActivity.SpeechWithinAudio` | services/core-api/src/ten_ext/luve_extension.py:957-964 | The speech time never exceeds the utterance's audio time |
| `VoiceActivity.Detector.IngestAudioFrame` | services/core-api/src/ten_ext/luve_extension.py:676-777 | The detector's in-place update is the reference step, up to the barge-in handling in which a frame is suspended |
| `VoiceActivity.Detector.ResumeFrame` | services/core-api/src/ten_ext/luve_extension.py:693-735 | A suspended frame goes on with the state as it is by then |
| `VoiceActivity.Detector.FinalizeUtterance` | services/core-api/src/ten_ext/luve_extension.py:651-674 | Emits the utterance and resets |
| `AudioBuffering.BufferHoldsRun` | services/core-api/src/media/buffer.py:80-103 | Whatever arrived, in whatever order and however often, the buffer holds the maximal contiguous run from the first arrival's number, first arrival winning, and beyond the gap exactly what waits |
| `AudioBuffering.ReorderingIrrelevant` | services/core-api/src/media/buffer.py:80-103 | Two arrival sequences with the same chunks and the same first number leave the same buffer |
| `AudioBuffering.ArrivalOrderIrrelevant` | services/core-api/src/media/buffer.py:80-103 | The buffer depends on the arrivals only through the first chunk under each number and the base |
| `AudioBuffering.ChunksAbut` | services/core-api/src/media/buffer.py:108-128 | In the concatenation each chunk lies whole, right behind those before it |
| `AudioBuffering.AudioBuffer.AddChunk` | services/core-api/src/media/buffer.py:80-103 | Refuses negative numbers and closed buffers, ignores empty chunks, late ones and duplicates, otherwise the reference step; cache, byte count and pending keys stay right |
| `AudioBuffering.AudioBuffer.GetFlatAudio` | services/core-api/src/media/buffer.py:108-128 | Returns the concatenation of the ordered chunks, from the cache or merged byte by byte, and caches it |
| `AudioBuffering.AudioBuffer.FlushContiguous` | services/core-api/src/media/buffer.py:176-187 | Moves pending chunks while they continue the run, dropping the cache when it does |
| `AudioBuffering.AudioBuffer.SweepSilence` | services/core-api/src/media/buffer.py:144-162 | Clears an idle buffer that holds audio, and nothing else |
| `OutboundTrack.HeardInOrder` | services/core-api/src/realtime/adapters/ten_compat.py:101-171 | What is heard between the silences is, in order, a prefix of the packets put without exactly those thrown away by clear or close; then come the packet of a receive that still sleeps and the queue; packets and held-up rest are all samples accepted |
| `OutboundTrack.TimestampsIncrease` | services/core-api/src/realtime/adapters/ten_compat.py:168-171 | Each frame starts where the previous one ends, and timestamps strictly increase |
| `OutboundTrack.ClearSilences` | services/core-api/src/realtime/adapters/ten_compat.py:121-123 | A clear silences the track until the next enqueue iff no producer is held up by a full queue and no sleeping receive holds a packet |
| `OutboundTrack.CloseEnds` | services/core-api/src/realtime/adapters/ten_compat.py:110-119 | With neither of these, every receive begun after a close finds the end and no real frame is heard any more |
| `OutboundTrack.CloseSilences` | services/core-api/src/realtime/adapters/ten_compat.py:110-119 | Nothing put before a close is heard after it, whatever happens next, iff no producer is held up and no sleeping receive holds a packet |
| `OutboundTrack.EnqueueAccepts` | services/core-api/src/realtime/adapters/ten_compat.py:57-108 | An open track takes all samples of a producer whose turn it is and a closed one none; a producer stops only when done or at 128 packets, and its packets are all of 960 samples but the last, with which its samples end |
| `OutboundTrack.ReceiveMeans` | services/core-api/src/realtime/adapters/ten_compat.py:140-150 | A receive takes the first packet that waits, makes up 960 zero samples iff nothing waits on an open track, and finds the end iff the marker is first or nothing waits on a closed one |
| `OutboundTrack.OutboundAudioTrack.EnqueuePcm` | services/core-api/src/realtime/adapters/ten_compat.py:57-108 | Packetises until done or the queue is full, as the reference does |
| `OutboundTrack.OutboundAudioTrack.BeginRecv` | services/core-api/src/realtime/adapters/ten_compat.py:140-150 | A receive up to its sleep: takes the next packet or a silent frame in hand, or finds the end |
| `OutboundTrack.OutboundAudioTrack.FinishRecv` | services/core-api/src/realtime/adapters/ten_compat.py:166-171 | From its sleep on: stamps and returns the frame in hand, whatever happened to the queue |
| `OutboundTrack.OutboundAudioTrack.Close` | services/core-api/src/realtime/adapters/ten_compat.py:110-119 | Leaves just the end marker; its queue-full branch is unreachable |
| `ReplyStream.StreamingIsExtracting` | services/core-api/src/ten_ext/luve_extension.py:1575-1621 | For every cutting into tokens, while the feedback marker has not appeared, the emitted text is the extracted reply after every token |
| `ReplyStream.ExactUnlessTorn` | services/core-api/src/ten_ext/luve_extension.py:1575-1590 | Over whole outputs of any text, emitted equals extracted iff completing the marker never cut off a visible character already shown; otherwise too much stays shown for good |
| `ReplyStream.TornRepeats` | services/core-api/src/ten_ext/luve_extension.py:1575-1590 | Once torn, the whole reply is emitted again by the token that completes the marker and by every later non-empty one |
| `ReplyStream.TornMeans` | services/core-api/src/ten_ext/luve_extension.py:3401-3411 | In a text whose upper case is as long as itself that means: the marker's first character came in an earlier token than its last |
| `ReplyStream.Streamer.OnToken` | services/core-api/src/ten_ext/luve_extension.py:1575-1607 | The token handler emits exactly what it appends to the shown text |
| `ReplyParsing.StreamedReplyIsParsedReply` | services/core-api/src/media/brain.py:386-418 | For a well-formed two-line output the streamed text is the parsed reply, and the tail to send is empty, iff no token ends strictly inside the feedback marker and upper-casing leaves the reply its length |
| `ReplyParsing.LongUpperCaseShowsMarker` | services/core-api/src/ten_ext/luve_extension.py:3401-3411 | A reply of one sharp s, delivered whole, is streamed with the marker's first letter behind it and parsed without |
| `ReplyParsing.ParsedResponse` | services/core-api/src/media/brain.py:391-408 | Parsing a well-formed two-line output gives the stripped first-line text as reply and the stripped second as feedback, or none if that says none, n/a or na in any case |
| `ReplyParsing.LastMarkedCounts` | services/core-api/src/media/brain.py:391-398 | Of several marked lines the last one gives the reply, and likewise the feedback: the stripped text behind its first colon |
| `ReplyParsing.UnmarkedLineIsReply` | services/core-api/src/media/brain.py:410-418 | A one-line output without the reply marker is the reply itself, stripped and cut at 220 characters, without feedback; a blank one is an error |
| `ReplyParsing.ParseOutput` | services/core-api/src/media/brain.py:386-418 | The loop over lines computes the reference parse, fallback included |
| `ReplyParsing.TornWhenCut` | services/core-api/src/ten_ext/luve_extension.py:1619-1621 | The marker cuts off shown text iff some token ends inside it, further in than upper-casing moves it, and the rest has arrived |
| `PhraseSegmenter.PiecesConserved` | services/core-api/src/media/tts.py:135-203 | For any deltas, any number of feeds and flushes at once, waits for the bounded queue and cancellations: the pieces cut off and the buffer speak exactly the text fed, and each piece is put once, or waits in one task, or was cancelled |
| `PhraseSegmenter.OrderExactlyUnlessOvertaken` | services/core-api/src/media/tts.py:135-203 | Phrases are put in text order with none lost iff no feed or flush puts while an earlier piece of another task still waits, and no task with pieces left is cancelled |
| `PhraseSegmenter.ReplyIsSpokenOnce` | services/core-api/src/media/tts.py:135-203 | In such runs what was put always speaks a beginning of the text fed, and once all tasks are done, with the buffer, all of it |
| `PhraseSegmenter.FinalFeedEmpties` | services/core-api/src/media/tts.py:172-174 | A final feed leaves nothing audible in the buffer |
| `PhraseSegmenter.FlushOvertakes` | services/core-api/src/media/tts.py:138-153 | A concrete run on a full queue in which a flush gets the rest of a text spoken before its second phrase |
| `PhraseSegmenter.RepliesOvertake` | services/core-api/src/ten_ext/luve_extension.py:1407-1423 | A concrete run without any flush in which a second reply's phrase is spoken amid the first reply's |
| `PhraseSegmenter.CancelledFeedLoses` | services/core-api/src/ten_ext/luve_extension.py:835-846 | A concrete run in which a cancelled reply loses the phrases it had still to put |
| `PhraseSegmenter.CancelledTimerLoses` | services/core-api/src/ten_ext/luve_extension.py:1559-1573 | A concrete run in which cancelling a waiting timer loses its text |
| `PhraseSegmenter.PhrasesAreNumbered` | services/core-api/src/media/tts.py:193-203 | No two phrases share a number in any run, and numbers follow the puts while each task starts when those before it are done and none is cancelled |
| `PhraseSegmenter.NormalizedIsTidy` | services/core-api/src/media/tts.py:193-196 | Normalised words are one ' ' apart, with no white space at the ends and no other in between |
| `PhraseSegmenter.NormalizedKeepsWords` | services/core-api/src/media/tts.py:193-196 | Normalising keeps the list of words: none is joined to another, cut or dropped |
| `PhraseSegmenter.DrainConserves` | services/core-api/src/media/tts.py:159-177 | Draining keeps the visible characters and their order, and every phrase it cuts has some |
| `PhraseSegmenter.DrainCompletes` | services/core-api/src/media/tts.py:159-191 | What draining leaves has no mark that ends a word, and is short or has no ' ' behind its start; and no phrase is blank |
| `PhraseSegmenter.UncutExactlyWhen` | services/core-api/src/media/tts.py:179-191 | Text is left uncut iff no punctuation mark is followed by white space or nothing, and the stripped text is shorter than the limit or has no ' ' behind its start |
| `PhraseSegmenter.CutMeans` | services/core-api/src/media/tts.py:179-191 | Otherwise the cut lies right behind the first such mark and its one white space, or, if there is none, right behind the last ' ' |
| `PhraseSegmenter.ReadyPhrases` | services/core-api/src/media/tts.py:159-177 | Phrases begin and end visibly; a feed that is not final leaves the rest, a final one adds it as the last phrase iff it is visible |
| `PhraseSegmenter.WaitsOnlyForRoom` | services/core-api/src/media/tts.py:135-203 | In any run, a task that starts or goes on ends its step with everything put or in front of a full queue, whose first phrase is spoken next |
| `PhraseSegmenter.NormalizedSpeaksAll` | services/core-api/src/media/tts.py:193-203 | Whitespace normalisation keeps every visible character |
| `PhraseSegmenter.Processor.FeedText` | services/core-api/src/media/tts.py:135-144 | A new feed, whatever other tasks wait: drains, and puts until done or the queue is full |
| `PhraseSegmenter.Processor.EnqueuePhrases` | services/core-api/src/media/tts.py:143-144 | A task's loop over its phrases, from any of its awaits, puts what fits |
| `PhraseSegmenter.Processor.ForceFlush` | services/core-api/src/media/tts.py:146-153 | Takes the buffer and puts it, or waits with it |
| `PhraseSegmenter.Processor.EmitAudioChunks` | services/core-api/src/media/tts.py:234-260 | The chunks are the phrase's audio, all but the last full, only the last marked, numbered on from before |
| `PhraseSegmenter.ChunksAbut` | services/core-api/src/media/tts.py:234-260 | In the audio of chunks each lies whole, right behind those before it |
| `MixedLanguage.VietnameseIffTokenMarked` | services/core-api/src/ten_ext/luve_extension.py:2376-2408 | The test on the transcript holds iff it holds of some whitespace token |
| `MixedLanguage.VietnameseExactlyWhenShown` | services/core-api/src/ten_ext/luve_extension.py:2376-2408 | Both tests, of a transcript and of a token, hold iff there is an accented character or a normalised word in the phonetic list and outside the homographs |
| `MixedLanguage.WordIsLowered` | services/core-api/src/ten_ext/luve_extension.py:2302-2305 | A stretch of letters and digits is one normalised word, in lower case |
| `MixedLanguage.SeparatorDivides` | services/core-api/src/ten_ext/luve_extension.py:2302-2305 | Any other character only divides the normalised words before it from those behind it |
| `MixedLanguage.MixedEnglishRuns` | services/core-api/src/ten_ext/luve_extension.py:2444-2458 | The loop returns the stripped maximal runs of unmarked tokens |
| `MixedLanguage.BlocksPartition` | services/core-api/src/ten_ext/luve_extension.py:2444-2458 | The runs hold the unmarked tokens, all, once, in order |
| `MixedLanguage.BlocksAreMaximal` | services/core-api/src/ten_ext/luve_extension.py:2447-2456 | There is one run per unmarked token that has no unmarked one right before it |
| `MixedLanguage.RunsHoldUnmarkedWords` | services/core-api/src/ten_ext/luve_extension.py:2444-2458 | The normalised words of the runs are exactly those of the unmarked tokens, in order, whatever punctuation was stripped |
| `MixedLanguage.RunsAreFree` | services/core-api/src/ten_ext/luve_extension.py:2466-2472 | No run ever tests as Vietnamese, so the later test on it never fires |
| `MixedLanguage.EnglishSegment` | services/core-api/src/ten_ext/luve_extension.py:2460-2493 | Chooses the first run with the lexicographically highest score among the eligible, or none iff none is eligible |
| `MixedLanguage.BestMeans` | services/core-api/src/ten_ext/luve_extension.py:2482-2492 | The chosen run is fit and beats every other fit one by more common or controlled words, or as many and more words, or as many of both and more characters, or by coming first |
| `MixedLanguage.WeakEnglishFragment` | services/core-api/src/ten_ext/luve_extension.py:2495-2530 | The same for fragments of one or two words |
| `MixedLanguage.ExtractableMeans` | services/core-api/src/ten_ext/luve_extension.py:2473-2481 | Eligibility comes down to three words, two of them common, outside the incomplete phrases: the second evidence test adds nothing |
| `MixedLanguage.EvidenceMeans` | services/core-api/src/ten_ext/luve_extension.py:2313-2362 | The shares of common words decide nothing: evidence is two common words, a strong attempt three of them, or two and two content words, among three words; and no Vietnamese |
| `MixedLanguage.CountContentMeans` | services/core-api/src/ten_ext/luve_extension.py:2348-2352 | Content words are those of three letters outside the uninformative list |
| `MixedLanguage.WeakMeans` | services/core-api/src/ten_ext/luve_extension.py:2495-2530 | A fragment is fit iff it has one or two words, all alphabetic, is ASCII, shows no Vietnamese, and has a common or controlled word, an informative one and, of two, one of four letters |
| `MixedLanguage.StripTakesEdges` | services/core-api/src/ten_ext/luve_extension.py:2450-2456 | Stripping takes just the punctuation and spaces at the two ends |
| `MixedLanguage.SplitMixedLanguageTranscript` | services/core-api/src/ten_ext/luve_extension.py:2532-2542 | The text handed on shows no Vietnamese; a text that shows none is handed on as it is without a reason, any other gets the reason of its case |
| `WordErrorRate.DistanceIsCheapestScript` | services/core-api/scripts/eval_stt_final.py:53-64 | The recurrence is the minimum cost over all insert, delete and substitute scripts |
| `WordErrorRate.DistanceTriangle` | services/core-api/scripts/eval_stt_final.py:53-64 | Triangle inequality, by composing scripts |
| `WordErrorRate.DistanceSymmetric` | services/core-api/scripts/eval_stt_final.py:53-64 | Symmetry |
| `WordErrorRate.DistanceZeroIffEqual` | services/core-api/scripts/eval_stt_final.py:53-64 | Zero iff the word lists are equal |
| `WordErrorRate.DistanceBounds` | services/core-api/scripts/eval_stt_final.py:53-64 | Between the difference of the lengths and the longer length |
| `WordErrorRate.Rate` | services/core-api/scripts/eval_stt_final.py:43-64 | The table-filling loops return distance over reference length; zero iff equal; the two empty-reference cases |
| `WordErrorRate.FillCell` | services/core-api/scripts/eval_stt_final.py:57-63 | Filling one cell extends the part of the table that holds the prefix distances |
| `Repetitions.FilterRepetitions` | services/core-api/src/media/stt_postprocess.py:29-39 | The loop returns the joined sentences of the reference |
| `Repetitions.FilteredSentences` | services/core-api/src/media/stt_postprocess.py:29-39 | The result splits into exactly the kept sentences, no two neighbours equal, one per stretch of equal ones |
| `Repetitions.FilterTwice` | services/core-api/src/media/stt_postprocess.py:29-39 | Filtering twice is filtering once |
| `Repetitions.UnchangedIff` | services/core-api/src/media/stt_postprocess.py:29-39 | Nothing changes iff there is one sentence, or all are stripped and differ from their predecessor |
| `StudentWords.CountsAgree` | services/grading-worker/src/session_eligibility.py:202-215 | The gate's and the input's word counts agree iff no string-encoded event is a reliable student turn |
| `StudentWords.SpaceDivides` | services/grading-worker/src/session_eligibility.py:202-215 | Words are counted so that white space divides a text into the words before and behind it |
| `StudentWords.UnbrokenIsOne` | services/grading-worker/src/session_eligibility.py:202-215 | A text without white space is one word |
| `StudentWords.ReliableExactlyWhen` | services/grading-worker/src/session_eligibility.py:166-199 | A student's turn with textual fields is reliable iff its segment or text is visible, it is not flagged ineligible, no exclusion reason is visible, its language is neither vietnamese nor noise in any case, and none of the nine hard reasons is listed |
| `StudentWords.GradingTextMeans` | services/grading-worker/src/session_eligibility.py:73-106 | A turn is graded by its stripped segment iff that is visible, else by its stripped text, else by nothing |
| `StudentWords.EncodedEventCounts` | services/grading-worker/src/session_eligibility.py:115-128 | An event that encodes a mapping counts for gate and API like that mapping; any other string counts nothing for either |
| `StudentWords.EncodedLogCounts` | services/grading-worker/src/session_eligibility.py:33-56 | A log may be an encoded list; no log gives no count, and what is no list is refused by the gate and zero words to the API |
| `StudentWords.VerdictMeans` | services/grading-worker/src/session_eligibility.py:217-292 | Refused for no user turns iff there is none; eligible iff some turn is reliable and the reliable turns have the minimum of words; with the numbers of turns and words reported |
| `StudentWords.InputMeans` | services/grading-worker/src/evaluation_input_builder.py:34-98 | The input's turns are, in log order, just the events that give one, each with its speaker and text; ignored, blank and unreliable events are counted exactly |
| `StudentWords.GateAgainstInput` | services/grading-worker/src/evaluation_input_builder.py:34-98 | For every log: events are turns plus ignored, turns are numbered 0 to n-1, and the gate counts the input's words plus those of string-encoded events |
| `StudentWords.TurnsAgree` | services/grading-worker/src/evaluation_input_builder.py:34-98 | Then also the student turns agree |
| `StudentWords.StudentTurnExactlyWhenPlain` | services/grading-worker/src/evaluation_input_builder.py:34-98 | The input has a student turn iff some event is a plain mapping and a reliable student turn |
| `StudentWords.EligibleHasStudentTurn` | services/grading-worker/src/session_eligibility.py:217-292 | An eligible session whose string-encoded events are no reliable turns yields a student turn and at least the minimum of words |
| `StudentWords.EvaluateGradingEligibility` | services/grading-worker/src/session_eligibility.py:217-292 | The loop with its three counters returns the reference verdict |
| `StudentWords.BuildEvaluationInput` | services/grading-worker/src/evaluation_input_builder.py:12-119 | The loops return the reference input, its student words and whether it has student turns |
| `StudentWords.ComputeStudentWordCount` | services/core-api/src/services/session_service.py:316-338 | The API's count, or none for a log without it |
| `StudentWords.FewerExactlyWhenHidden` | services/core-api/src/services/session_service.py:316-338 | The API counts fewer words of an event whose English segment is text or missing than the worker iff the worker counts it and its type is not spelled exactly or its English segment is non-empty and blank |
| `StudentWords.CountsNoLessExactlyWhenNothingHidden` | services/core-api/src/services/session_service.py:316-338 | On all logs made of given events the API counts at least the worker's words iff none of the events is such a one |
| `StudentWords.NoContradictionExactlyWhenNothingHidden` | services/core-api/src/services/session_service.py:419-425 | And exactly then, for every such log and every shared threshold, an inferred insufficient_evidence means the worker refuses the session |
| `StudentWords.InferredInsufficientIsRefused` | services/core-api/src/services/session_service.py:419-425 | The same for one stored log in either form, list or encoded list, whose events have text or nothing as English segment and hide nothing |
| `StudentWords.BlankSegmentDivides` | services/core-api/src/services/session_service.py:316-338 | There is such an event for any word: with a blank segment the two services contradict each other |

## Left out

- The user interface, sign-in, configuration, health and HTTP endpoints, session listing.
- SQL text, broker client, WebRTC, speech recognition, language models, speech synthesis, audio resampling and channel mixing: their results are inputs, and the outgoing track takes mono samples at its own rate.
- Statements of a crashed process that the database still executes after the process has restarted; hard deletion of session rows.
- The relay's poll interval, retry delays, the requeue backoff and the scanner's grace window, limit and dry run: a scan may return any candidates.
- Log content in the protocol: a session carries its eligibility verdict; how a log gives that verdict is in `StudentWords`.
- Loudness, the adaptive noise floor and the partial interval: each frame says whether it counts as speech and whether a partial is due. Durations are in bytes, at 32 bytes a millisecond.
- Awaits that never suspend: a frame outside the barge-in handling, a token outside its feed and a job put on the inference queue are one step.
- The playout clock of the outgoing track: how long a receive sleeps is left open. Receives do not overlap, as the sender calls them one after another.
- The immediate stop of speech synthesis, and synthesis that fails; a phrase the worker takes is taken as spoken.
- The wrapper shapes that the input builder accepts around an event list, the parsing of identifiers, timing and quality fields.
- Tokenisation of the transcripts measured for word error rate: the model starts from word lists.
- The whole-text rejections of transcripts and the recognition thresholds: tables of constants settled by reading the branches.
- Python's context-dependent lower-casing of a final sigma: lower-casing is per character.
- The older conversation coordinator, the score arithmetic and prompts of the graders.
- UninterruptedDelivery: covers deliveries worked without interruption; interrupted ones are runs of the transition system with no loop to compare with.
