# A verified model of eino-obs

eino-obs records spans of language-model runs: handles collect observations, a redaction
pipeline removes what must not leave the process, and exporters keep or send the result. This
project models the parts of it where a mistake would be hardest to see, and proves what they are
for.

## What is modelled

**Redaction** (`internal/redaction/redaction.go`). `Utf8` is the encoding of section 3 of
RFC 3629 as Go's `range` reads it: a malformed byte is the replacement character and one byte
wide. `Truncation` is the cut of a text at a rune boundary, `Names` the canonical form of a
name, `KeyOrder` the order attributes are visited in. `Redaction` classifies keys and applies
the rules to attributes, events and spans; a classification is a function from keys to rules, so
that the laws in `RedactionLaws` hold for any. `Summaries` is the first stage, which turns a
summary into bounded, sorted attributes, and `TwoStages` proves what the second stage does to
them. `Forbidden` proves what all this is for: encrypted reasoning and sensitive metadata survive
in no spelling, what survives is within its limit, and nothing disappears without a record.
`Spellings` reads a name by its words, `KeyWords` says by the words of a key what it is,
`RawPayloads` proves that raw prompts, inputs, outputs, attachments, reasoning and provider payloads
never survive, and `RedactionInWords` and `SummariesInWords` say what happens to every attribute and
every summary field, and which records are left, in words and literal constants only. A Go string is
a sequence of bytes, one character for each.

**The schema** (`internal/model/model.go`). `Model` has the data types, the schema as predicates,
and the validating code proved against them. `SchemaLaws` says, for every part of a valid span or
event, exactly which changes of that part leave it valid. `TidyNames` and `SchemaPreserved` prove
that redaction keeps a valid span valid.

**The recorder** (`internal/recorder/state.go`). An operation takes the lock when it begins and
again when it commits. `Recorder` has these critical sections as functions on the store,
`RecorderRuns` interleaves them in every possible way, with Reset among them, and
`RecorderState` is the object itself, whose methods change fields and shift the error history in
place and are proved to do what the functions say. The theorems about all interleavings are in
`RecorderSpans` (no span is lost, repeated or changed), `RecorderOrder` (numbers stay in order),
`RecorderBooks` (counts and the error history), `RecorderContents` (what the spans hold) and
`RecorderShutdown` (what a shutdown, failed or not, means for the operations after it), and
`RecorderClosed` (when the store is shut down and what it then refuses). `RecorderLoops` says
without recursion what each loop records, queues and drops, and `RecorderAnswers` what the answer
of an operation tells its caller. History variables, which
no operation reads, remember every numbered span, the whole error log, the spans a shutdown
discarded, how each recorded span came in, and every counted attempt.

**The Datadog exporter** (`exporter/datadog/exporter.go`). `Batching` splits a queue into
payloads, `Retry` sends one payload with attempts and delays in int64 nanoseconds, `Datadog`
drains the queue against an arbitrary server, `DatadogRuns` has the theorems about all runs, and
`DatadogExporter` is the object, whose queue is compacted in place in its array. The server, the
jitter draws and the interrupted sleeps are arbitrary functions of the number of requests sent.
An observation is an end-time flag and an encoded size. A payload is the compact JSON text
`{"spans":[...]}` of section 5 of RFC 8259: 12 bytes, the encodings, and a comma between two.

**The stream handle** (`stream.go`). `Streams` has the critical section of each call and the
observation it exports, `StreamRuns`, `StreamSchema`, `StreamTimes`, `StreamAttributes` (every
exported attribute, key by key) and `StreamEvents` (the observation and its events) the theorems, and
`StreamObject` the object, whose calls take their summaries through `Summaries`.

## What the code does that one might not expect

- A successful recorder Shutdown throws pending spans away and records no drop
  (`internal/recorder/state.go:254`). `discarded` remembers them.
- An injected export failure is handled before the shutdown test
  (`internal/recorder/state.go:116-125`), so a retryable one queues spans after a shutdown, and
  Record never tests shutdown at all. `RecorderShutdown.ExportEntersAfterShutdown` is such a run,
  and `RecorderShutdown.EntersAfterShutdown` says exactly which steps let a span in, from a
  shutdown to the next Reset.
- A Shutdown closes the store when it begins, so that exports are refused even after one that was
  canceled or failed: `RecorderClosed.ExportIsClosedIff`. A second Shutdown answers nil while the
  first is under way, and the first may then fail: `RecorderClosed.EarlyNil`.
- An empty batch exported after shutdown is refused without the refusal being remembered
  (`internal/recorder/state.go:125-131`). It is the one answer that is not:
  `RecorderAnswers.ExportAnswer`.
- A retained shutdown error does not always mean a dirty store. A flush that began before a
  failing shutdown cleans the store afterwards and returns nil:
  `RecorderShutdown.InterleavedFlushCleans`. A commit does this exactly when it is such a flush
  and everything is delivered (`RecorderShutdown.CleansIff`), a run keeps the property exactly
  when it has no such commit (`RecorderShutdown.DirtyThroughoutIff`), and it is enough that no
  such flush is under way when a shutdown fails (`RecorderShutdown.GuardedRun`).
- A flush from before a Reset answers nil while the new epoch retains a shutdown error:
  `RecorderShutdown.StaleFlushAnswersNil`. `RecorderShutdown.NilFlushIff` says exactly when a
  flush answers nil.
- A drain clears the whole queue on any failure that is not retryable, and an interrupted retry
  sleep is one (`exporter/datadog/exporter.go:260`, `exporter/datadog/exporter.go:450-451`):
  `Retry.SleepLaws`, `DatadogRuns.CutShortDrainClears`.
- `MaxRetries + 1` wraps when MaxRetries is the largest integer. The loop then never runs and
  everything that can be sent is acknowledged without a request:
  `DatadogRuns.ConfirmedIffRetriesFit`.
- A retry delay can leave its bounds, and wrap below zero, exactly when 1.5 times the largest
  delay does not fit in an int64: `Retry.BoundedIffCapFits`. With no largest delay the doubling
  wraps: `Retry.UncappedExactIffFits`.
- With an odd largest delay the backoff reaches it one nanosecond early: `Retry.BackoffExact`.
- `tool.output.summary.name` never survives a second pass, because its canonical form begins
  like a raw tool output (`internal/redaction/redaction.go:411-421`).
- The branch `return value[:size]` of the truncation is unreachable
  (`internal/redaction/redaction.go:323-325`): `Truncation.FallbackUnreachable`.
- A stream's span is valid exactly when its observation and trace identifiers are not empty; an
  empty identifier is exported all the same: `StreamSchema.ExportedSpanIsValid`.

## Model

| member | source | states |
|---|---|---|
| RecorderRuns.EpochErasure | internal/recorder/state.go:75-305 | Main result. For every interleaving, the store at the end and every answer to an operation begun after the last Reset are those of a new store on which only those operations run. |
| RecorderRuns.SimulationRuns | internal/recorder/state.go:335-347 | A store with stale operations in flight runs like one without them, step by step, until the next Reset. |
| RecorderRuns.EpochsAreBehind | internal/recorder/state.go:302-302 | In every reachable state no operation in flight is from a later epoch. |
| RecorderRuns.RunKeeps | internal/recorder/state.go:37-63 | What every critical section keeps, and the empty store has, holds after every interleaving. |
| RecorderSpans.SpanConservation | internal/recorder/state.go:91-305 | Main result. Over every interleaving the spans numbered in the epoch carry 1, 2 and so on, their events likewise, and each of them, unchanged, is in exactly one place among recorded, pending, numbered dropped and discarded; nothing else is there. |
| Recorder.StampLaws | internal/recorder/state.go:445-452 | Numbering gives the span its number and its events 1, 2 and so on, and changes nothing else. |
| RecorderSpans.SequenceConservation | internal/recorder/state.go:445-452 | Over every interleaving each number from 1 to the sequence counter is the stamp of exactly one span among recorded, pending, numbered dropped and discarded, and no other number is. |
| RecorderSpans.ConservedInvariant | internal/recorder/state.go:75-259 | No critical section loses, repeats or changes a numbered span. |
| RecorderSpans.NumberedInvariant | internal/recorder/state.go:445-452 | Every critical section numbers on from the last number given. |
| RecorderSpans.FlushConserves | internal/recorder/state.go:165-214 | A flush, whether its resend is delivered, fails or is kept, leaves every pending span in exactly one place. |
| RecorderSpans.ShutdownConserves | internal/recorder/state.go:248-259 | A successful shutdown moves the pending spans to the discarded ones. |
| RecorderSpans.InjectedExportConserves | internal/recorder/state.go:380-401 | An injected failure queues or drops every span of the batch under a new number. |
| RecorderSpans.ExportConserves | internal/recorder/state.go:120-144 | An export numbers and records or drops every span, or after shutdown drops them without numbers. |
| RecorderOrder.OrderKept | internal/recorder/state.go:133-143 | Over every interleaving pending is strictly increasing in its numbers, and so are the recorded spans accepted directly and those delivered by a flush. |
| RecorderOrder.InLineInvariant | internal/recorder/state.go:75-259 | No critical section puts a number out of order. |
| RecorderOrder.TakeLoopOrdered | internal/recorder/state.go:186-201 | Delivering or losing the queue, a span at a time from its head, keeps the numbers of the recorded spans and of the rest of the queue in order. |
| RecorderOrder.RecordedOnlyGrows | internal/recorder/state.go:415-417 | Until the next Reset the recorded spans only grow, and once the store is full they never change. |
| RecorderBooks.ErrorHistoryRefinesLog | internal/recorder/state.go:419-435 | Over every interleaving the history is the last 256 entries of the log of all errors, the dropped count is the number of the others, and the last error is the last entry. |
| RecorderBooks.AppendRefines | internal/recorder/state.go:425-435 | One remembered error keeps that relation, whether the history is shifted or grows. |
| RecorderBooks.CountersAndFlags | internal/recorder/state.go:437-443 | Over every interleaving each operation's count equals its named counter, no two attempts of an operation share an index, pending spans make the store dirty, and capacity is respected. |
| RecorderBooks.BooksInvariant | internal/recorder/state.go:147-259 | Every critical section keeps the counters, the history, the dirty flag and the capacity in order. |
| RecorderBooks.MatchingMatches | internal/recorder/state.go:322-333 | A failure is found exactly when a rule or the single failure matches the call, and what is found matches it. |
| RecorderBooks.MatchingIsFirst | internal/recorder/state.go:322-333 | The first rule that matches is found, and the single failure only when no rule matches. |
| RecorderBooks.BeginTakesIndex | internal/recorder/state.go:335-347 | An operation that begins takes the next index of its kind, under which it is counted and rules are matched, and a flush the shutdown error retained then. |
| RecorderBooks.FailureStrikesOnce | internal/recorder/state.go:322-333 | Over every interleaving a failure set for one call strikes at most one attempt of its operation in an epoch. |
| RecorderShutdown.CleansIff | internal/recorder/state.go:75-283 | From a store in which a retained shutdown error means dirty, a commit ends that if and only if it is a flush of this epoch that captured no error, is not canceled, is failed by no rule, and has nothing to resend or resends all of it with room. |
| RecorderShutdown.DirtyThroughoutIff | internal/recorder/state.go:75-305 | Main result. Over every interleaving a retained shutdown error means dirty in every state if and only if no step is such a commit. |
| RecorderShutdown.GuardedRun | internal/recorder/state.go:147-163 | If no flush that captured no error is under way whenever a shutdown of its epoch fails, then a retained shutdown error means dirty throughout and no flush of its epoch answers nil while it is retained. |
| RecorderShutdown.NilFlushIff | internal/recorder/state.go:155-214 | A flush answers nil if and only if it does not stop at a captured error and either its epoch is over or it is not canceled, not failed and delivers everything. |
| RecorderShutdown.NilResendIff | internal/recorder/state.go:170-214 | The resend answers nil if and only if there is nothing to send, or no rule fails it and there is room for the whole queue. |
| RecorderShutdown.NoOverflowIffRoom | internal/recorder/state.go:132-144 | A loop that records never finds the store full if and only if there is room for all its spans. |
| RecorderShutdown.InterleavedFlushCleans | internal/recorder/state.go:211-214 | A run in which a flush begun before a failing shutdown cleans the store and answers nil. |
| RecorderShutdown.StaleFlushAnswersNil | internal/recorder/state.go:161-163 | A run in which a flush from before a Reset answers nil while the new epoch retains an error. |
| RecorderShutdown.ShutdownErrorWhenAtomic | internal/recorder/state.go:147-163 | When operations do not interleave, a retained shutdown error means dirty, and a flush does not answer nil while it is retained. |
| RecorderShutdown.WholeIsUninterrupted | internal/recorder/state.go:75-100 | An operation whose sections are not interrupted is its two steps in a row. |
| RecorderShutdown.EntersAfterShutdown | internal/recorder/state.go:75-305 | Main result. Over every interleaving from a shutdown to the next Reset the store stays shut down; a step adds to the queue if and only if it commits an export of a non-empty batch whose failure is retryable and drops nothing, adds to what is held if and only if it does so or commits a record that finds room, and changes the recorded spans if and only if it commits such a record or a flush that delivers. |
| RecorderShutdown.CommitEnters | internal/recorder/state.go:116-131 | The same for one commit in its own epoch. |
| RecorderShutdown.ExportEntersAfterShutdown | internal/recorder/state.go:116-125 | A run in which an export after a successful shutdown queues its span. |
| RecorderShutdown.DeliveryGrows | internal/recorder/state.go:186-201 | A delivery changes the recorded spans exactly when there is a span to deliver and the store is not full. |
| RecorderClosed.ShutdownIffBegun | internal/recorder/state.go:218-225 | Main result. Over every interleaving the store is shut down if and only if a Shutdown of the present epoch has begun, whatever became of it, and if and only if one has been counted. |
| RecorderClosed.ExportIsClosedIff | internal/recorder/state.go:120-144 | Main result. Over every interleaving an export in its own epoch that is not canceled and that neither redaction nor a rule fails answers that the exporter is closed if and only if a Shutdown of the epoch has begun; it then records, queues and numbers nothing and drops every span. Otherwise it numbers all its spans, records as many as there is room for, drops the rest, and answers one capacity error for each of these. |
| RecorderClosed.ShutdownEndsIff | internal/recorder/state.go:222-230 | Over every interleaving a Shutdown ends in its first section if and only if another of its epoch has begun and no shutdown error is retained. |
| RecorderClosed.ShutdownErrorIsLast | internal/recorder/state.go:232-259 | The retained shutdown error is that of the last Shutdown of the epoch that ended, and there is none after one that succeeded. |
| RecorderClosed.CapturedExactly | internal/recorder/state.go:155-163 | A flush that captured a shutdown error answers it and does nothing, in any epoch, unless it is canceled or a rule fails it. |
| RecorderClosed.EarlyNil | internal/recorder/state.go:226-229 | A run in which a Shutdown answers nil while the first is under way, and the first then fails. |
| RecorderLoops.AcceptsAll | internal/recorder/state.go:132-144 | Accepting a batch numbers all of it, records its front as far as there is room, and drops the rest for capacity, each with a remembered error. |
| RecorderLoops.DeliversAll | internal/recorder/state.go:186-201 | Delivering a queue records its front as far as there is room and drops the rest for capacity, each with a remembered error. |
| RecorderLoops.OverflowsExactly | internal/recorder/state.go:132-144 | There is one error for each span without room. |
| RecorderLoops.DeliveryExactly | internal/recorder/state.go:186-214 | A resend that no rule fails: what is recorded, dropped, answered, and kept as the flush error. |
| RecorderLoops.InjectedExactly | internal/recorder/state.go:380-401 | An export that a rule fails: the whole batch is queued after a retryable failure that drops nothing, and dropped after any other, and the failure is remembered and answered. |
| RecorderLoops.FailedResendExactly | internal/recorder/state.go:170-185 | A resend that a rule fails: the queue stays after a retryable failure that drops nothing, and is dropped after any other. |
| RecorderLoops.FailuresExactly | internal/recorder/state.go:349-378 | What a canceled operation, a failed redaction and a failed flush or shutdown answer, remember and leave behind, and that they change nothing else. |
| RecorderContents.NothingForbiddenHeld | internal/recorder/state.go:75-305 | Main result. Over every interleaving no recorded, pending, dropped or discarded span holds, itself or in an event, an attribute whose name is encrypted reasoning or metadata with a sensitive name, nor a message of an error about encrypted reasoning. |
| RecorderContents.NoRawPayloadHeld | internal/recorder/state.go:75-305 | Main result. Over every interleaving no span held has, itself or in an event, a raw payload that is not let through as a summary. |
| RecorderContents.HeldSpansAreValid | internal/recorder/state.go:75-305 | Main result. Over every interleaving to which only valid spans are handed, every span held is valid. |
| RecorderContents.RunGood | internal/recorder/state.go:75-305 | Whatever redaction gives a span and numbering keeps, all spans held have, after every interleaving. |
| RecorderContents.StampedSpanValid | internal/recorder/state.go:445-452 | Numbering keeps a span valid. |
| RecorderAnswers.RecordAnswer | internal/recorder/state.go:91-99 | Record answers nil when there is room and a capacity error otherwise; nil means that it has numbered and recorded the span and changed nothing else, and the error is in the log and left the store dirty. |
| RecorderAnswers.ExportAnswer | internal/recorder/state.go:102-145 | A nil Export has numbered the whole redacted batch in order, recorded it, and changed nothing else. The answer is in the error log, and leaves the store dirty if it is not nil, if and only if it is not that of an empty batch, not canceled and failed by no rule, after a shutdown; that one changes nothing. |
| RecorderAnswers.FlushAnswer | internal/recorder/state.go:170-214 | A nil Flush has delivered the whole queue in order and left the store clean; any other answer is in the log and is the flush error, and the queue stays exactly after a failure that is retryable and drops nothing. |
| RecorderAnswers.AllAccepted | internal/recorder/state.go:132-144 | When no span found the store full, the loop has numbered all of them in order and recorded them. |
| RecorderState.FindFailure | internal/recorder/state.go:322-333 | The loop returns the first rule that matches, else the single failure if it matches. |
| RecorderState.State.constructor | internal/recorder/state.go:65-73 | A new object is the empty store in epoch 0. |
| RecorderState.State.ShiftErrors | internal/recorder/state.go:428-433 | The in-place copy drops the oldest error and puts the new one last. |
| RecorderState.State.RememberError | internal/recorder/state.go:425-435 | Remembers an error in the bounded history and changes nothing else. |
| RecorderState.State.Drop | internal/recorder/state.go:419-423 | Records a dropped span with its reason and error, remembers the error, and marks the store dirty. |
| RecorderState.State.IncrementCount | internal/recorder/state.go:437-443 | Counts an attempt by name in the map and answers its index. |
| RecorderState.State.CountOne | internal/recorder/state.go:335-347 | Counts an attempt in its named counter and by name, and answers its index. |
| RecorderState.State.AcceptOne | internal/recorder/state.go:91-99 | Numbers a span and records it, or drops it when the store is full. |
| RecorderState.State.BeginOperation | internal/recorder/state.go:335-347 | The first section of Record and Export. |
| RecorderState.State.BeginFlush | internal/recorder/state.go:148-153 | The first section of Flush, which captures a retained shutdown error. |
| RecorderState.State.BeginShutdown | internal/recorder/state.go:218-230 | The first section of Shutdown, which ends at once when a shutdown has already succeeded. |
| RecorderState.State.ReportAtEpoch | internal/recorder/state.go:349-378 | Publishes an operation's error in its own epoch, and nothing in a later one. |
| RecorderState.State.FinishRecord | internal/recorder/state.go:78-99 | The commit of Record is that of the state machine, cancellation, redaction failure and stale epoch included. |
| RecorderState.State.FinishExport | internal/recorder/state.go:105-144 | The commit of Export, with an injected failure handled before the shutdown test. |
| RecorderState.State.RedactBatch | internal/recorder/state.go:108-115 | The batch is redacted span by span; it fails exactly when it is not empty and the limit is negative. |
| RecorderState.State.InjectedExport | internal/recorder/state.go:380-401 | A retryable injected failure queues the batch, any other drops it. |
| RecorderState.State.Close | internal/recorder/state.go:125-131 | After shutdown every span of the batch is dropped without a number. |
| RecorderState.State.AcceptAll | internal/recorder/state.go:132-144 | Every span is numbered in order and recorded or dropped, with one error for each dropped one. |
| RecorderState.State.FlushNow | internal/recorder/state.go:170-214 | The resend of the queue: delivered, failed and kept, or failed and dropped. |
| RecorderState.State.DeliverPending | internal/recorder/state.go:186-201 | Every pending span is recorded or dropped for capacity, in order, and the queue is emptied. |
| RecorderState.State.FinishFlush | internal/recorder/state.go:155-214 | The commit of Flush. |
| RecorderState.State.FinishShutdown | internal/recorder/state.go:232-259 | The commit of Shutdown. |
| RecorderState.State.Reset | internal/recorder/state.go:285-305 | The object becomes the empty store in the next epoch. |
| RecorderState.State.Take | internal/recorder/state.go:75-305 | One step of any interleaving on the object is one step of the state machine, so every theorem about runs is about the object. |
| Batching.BatchingCorrectAndOptimal | exporter/datadog/exporter.go:353-387 | Main result. Groups are not empty, hold at most the batch size (100 when none is set) and the byte limit, concatenate to the queue without exactly the spans too large alone, and no other order-preserving split under the limits has fewer groups. |
| Batching.PayloadSizeIsLength | exporter/datadog/exporter.go:389-395 | The size of a payload is the length of its compact JSON text. |
| Batching.GreedyStaysAhead | exporter/datadog/exporter.go:362-382 | Against any split of the same spans the greedy one has fewer groups, or as many with a last group no longer. |
| Batching.BatchesConcatenate | exporter/datadog/exporter.go:362-386 | The groups concatenate to the items, in order. |
| Batching.SubgroupFits | exporter/datadog/exporter.go:389-395 | Leaving spans out at either end keeps a payload under both limits. |
| Batching.SplitPayloadGroups | exporter/datadog/exporter.go:353-387 | The loop produces the greedy groups, one error for each span too large alone, and the indexes of those spans. |
| Retry.ComputeRetryDelay | exporter/datadog/exporter.go:456-484 | The loop computes the capped, jittered int64 delay. |
| Retry.DoubleDelay | exporter/datadog/exporter.go:460-470 | The doubling loop, with its early exit, computes the delay before jitter. |
| Retry.BackoffExact | exporter/datadog/exporter.go:460-470 | With positive base and cap the delay before jitter is min(max, base times 2 to the retry index less one), and one nanosecond more only when the cap is odd and that value is just below it. |
| Retry.BackoffMonotone | exporter/datadog/exporter.go:461-467 | It does not decrease with the retry index. |
| Retry.DoublingNeverOverflows | exporter/datadog/exporter.go:462-466 | With a cap no doubling overflows. |
| Retry.BackoffBounded | exporter/datadog/exporter.go:471-483 | Every jittered delay lies between min(base, max) and max when 1.5 times the cap fits. |
| Retry.BoundedIffCapFits | exporter/datadog/exporter.go:479-483 | All delays are in those bounds if and only if 1.5 times the cap is an int64. |
| Retry.UncappedExactIffFits | exporter/datadog/exporter.go:461-467 | Without a cap the delay before jitter is exact if and only if base times the power of two is an int64. |
| Retry.DelaysExactly | exporter/datadog/exporter.go:471-483 | The possible delays are exactly those from the delay before jitter to half as much again, up to the cap. |
| Retry.NoBaseNoDelay | exporter/datadog/exporter.go:456-459 | Without a base delay there is no delay. |
| Retry.PostPayload | exporter/datadog/exporter.go:335-350 | The attempt loop ends with the outcome and the number of requests of its specification. |
| Retry.PostLaws | exporter/datadog/exporter.go:335-350 | At most MaxRetries + 1 requests, each repeated only after a retryable failure; delivered exactly when the last response is a success; retryable exactly when all of those attempts failed so. |
| Retry.SleepLaws | exporter/datadog/exporter.go:342-348 | No request follows one whose retry delay is positive and whose sleep was cut short. The outcome is the fault of that sleep if and only if the last response is transient, an attempt is left, the delay is positive and the sleep was cut short; otherwise the last response decides. |
| Retry.DeliveredMeansAccepted | exporter/datadog/exporter.go:336-350 | For every server a delivered payload was accepted, if and only if MaxRetries is not the largest integer. |
| DatadogRuns.FifoAtMostOnce | exporter/datadog/exporter.go:225-269 | Main result. Over any calls and any server each accepted observation is in exactly one place among acknowledged, skipped, cleared and pending, and acknowledged followed by pending is in the order of acceptance. |
| DatadogRuns.AcknowledgedIsConfirmed | exporter/datadog/exporter.go:253-268 | Over any run what is acknowledged is exactly the contents of the payloads the server accepted, in order, and every request was within both limits. |
| DatadogRuns.ConfirmedIffRetriesFit | exporter/datadog/exporter.go:336-337 | For every server and every run whose encodings are not empty, what is acknowledged is what the server accepted, if and only if MaxRetries is not the largest integer or no encoding can be sent at all, because of a negative redaction limit or a payload limit of the bare wrapper or less. |
| DatadogRuns.UnsentIsAcknowledged | exporter/datadog/exporter.go:335-350 | With the largest MaxRetries a drain acknowledges everything that can be sent and sends nothing. |
| DatadogRuns.ShutdownIsFinal | exporter/datadog/exporter.go:556-584 | After the first Shutdown nothing is sent, accepted or changed; an Export is refused and other calls repeat its answer. |
| DatadogRuns.NilDrainAcknowledgesAll | exporter/datadog/exporter.go:238-269 | A drain that answers nil leaves the queue empty and has acknowledged every ended observation. |
| DatadogRuns.DrainOutcomes | exporter/datadog/exporter.go:238-269 | A done context changes nothing; a redaction failure drops the head; a retryable failure in group k leaves exactly the observations of groups k and later; anything else empties the queue. |
| DatadogRuns.CutShortDrainClears | exporter/datadog/exporter.go:253-262 | A drain given up in a retry sleep of its k-th group answers the fault of the sleep, sends nothing more, has acknowledged the groups before and clears the group and all after it. |
| DatadogRuns.DrainAnswers | exporter/datadog/exporter.go:238-269 | What a drain answers: the context's error, the redaction failure, the failure that ended the sending, or one error for each ended observation too large alone. |
| DatadogRuns.AnswersNameTheCall | exporter/datadog/exporter.go:225-269 | Every error of an answer names the call, but for those about observations too large. |
| DatadogRuns.OnlyExportsAccept | exporter/datadog/exporter.go:225-236 | Before a shutdown every Export, even with a done context, queues its whole batch, nothing else does, and only a Shutdown shuts the exporter down. |
| DatadogRuns.RunRightly | exporter/datadog/exporter.go:286-310 | Only observations without an end time or too large alone are skipped, and only others are acknowledged or cleared. |
| DatadogRuns.SendAllConfirms | exporter/datadog/exporter.go:253-266 | The groups delivered are exactly those the server accepted. |
| DatadogExporter.CompactPending | exporter/datadog/exporter.go:397-412 | The in-place compaction of the shared array equals a functional filter, and leaves the rest of the array alone. |
| DatadogExporter.CompactionIsRest | exporter/datadog/exporter.go:252-267 | After k delivered groups, removing by index what was delivered and what cannot be sent leaves the observations of the other groups, in order. |
| DatadogExporter.SendGroups | exporter/datadog/exporter.go:252-266 | The loop over groups stops at the first failure and has marked exactly the delivered indexes. |
| DatadogExporter.Exporter.PreparePendingPayloads | exporter/datadog/exporter.go:286-310 | Collects the groups, the errors and the indexes to skip; a redaction failure skips only the head. |
| DatadogExporter.Exporter.DrainLocked | exporter/datadog/exporter.go:238-269 | The drain of the object is the drain of the state machine. |
| DatadogExporter.Exporter.Append | exporter/datadog/exporter.go:234-234 | A batch is appended in order, in a larger array when needed. |
| DatadogExporter.Exporter.Export | exporter/datadog/exporter.go:225-236 | Export on the object is the step of the state machine. |
| DatadogExporter.Exporter.Flush | exporter/datadog/exporter.go:556-566 | Flush on the object is the step of the state machine. |
| DatadogExporter.Exporter.Shutdown | exporter/datadog/exporter.go:568-584 | Shutdown on the object is the step of the state machine, and its answer is retained. |
| Redaction.ApplyInOrder | internal/redaction/redaction.go:107-174 | The loop over keys gives the pointwise result and the records in key order. |
| Redaction.ApplyAttributes | internal/redaction/redaction.go:100-175 | Fails exactly on a negative limit; otherwise the attributes are classified and treated one by one, and the records follow the sorted keys. |
| Redaction.ApplyEvent | internal/redaction/redaction.go:79-98 | The event with its attributes and error redacted and its records appended. |
| Redaction.ApplySpan | internal/redaction/redaction.go:51-77 | The same for a span and each of its events. |
| RedactionLaws.PassesCompose | internal/redaction/redaction.go:100-175 | Main result. Two passes give the attributes of one pass with the conjunction of the capture flags and the smaller effective limit, for any classification. |
| RedactionLaws.PassesCommute | internal/redaction/redaction.go:100-175 | The order of two passes does not matter for the attributes. |
| RedactionLaws.SpanPassesCompose | internal/redaction/redaction.go:51-77 | The same for whole spans, events included. |
| RedactionLaws.SpanRedactionIdempotent | internal/redaction/redaction.go:51-77 | A repeat with the same options changes nothing and adds no record. |
| RedactionLaws.EventRedactionIdempotent | internal/redaction/redaction.go:79-98 | The same for an event. |
| RedactionLaws.AttributesRepeat | internal/redaction/redaction.go:100-175 | The same for attributes. |
| Forbidden.ForbiddenNeverSurvives | internal/redaction/redaction.go:100-175 | Main result. An attribute whose name is canonically encrypted reasoning, or metadata with a sensitive name, is never kept, in any spelling and with any options. |
| Forbidden.SpanHoldsNothingForbidden | internal/redaction/redaction.go:51-77 | A redacted span holds no such attribute, nor does any of its events, and no message of an error about encrypted reasoning. |
| Forbidden.MetadataNameIsSecret | internal/redaction/redaction.go:380-391 | However a metadata key is spelled, its name is read as the sensitive name it canonically is. |
| Forbidden.NotAField | internal/redaction/redaction.go:360-374 | Only a key whose canonical name is not ASCII or has two m's in a row can be read as a summary field. |
| Forbidden.SummariesObeyCapture | internal/redaction/redaction.go:111-140 | A library summary and its fields are dropped when their side is not captured, and a field when its name is sensitive or too long. |
| Forbidden.SurvivorsAreLimited | internal/redaction/redaction.go:294-336 | A kept text of a summary, a summary field or a metadata entry is within the limit. |
| Forbidden.OmissionsAreRecorded | internal/redaction/redaction.go:107-175 | Every attribute is kept or has exactly one record of its omission, and nothing else has one. |
| RawPayloads.RawNeverSurvives | internal/redaction/redaction.go:406-433 | Main result. A key whose words begin with prompt, model or tool input or output, attachment, reasoning, or provider request or response, and that is not of a tool's summary, survives in no spelling and with no options, and leaves exactly one omission record with its reason and length. |
| RawPayloads.RawSurvivesIff | internal/redaction/redaction.go:100-175 | Such a key can survive if and only if it is a library summary, a field of one with a name that is neither sensitive nor too long, or of a tool input's summary and no field. |
| RawPayloads.RawOmitted | internal/redaction/redaction.go:100-175 | Any other such key is omitted with exactly one record. |
| KeyWords.RawIff | internal/redaction/redaction.go:406-433 | The raw payload test in the words of the key. |
| KeyWords.SensitiveIff | internal/redaction/redaction.go:442-455 | A name is sensitive if and only if its words are those of encrypted reasoning or of one of thirteen credentials. |
| KeyWords.SideIff | internal/redaction/redaction.go:349-358 | A key is a library summary if and only if its words are those of one. |
| KeyWords.FieldBegins | internal/redaction/redaction.go:360-374 | Only a key that begins with the words of a library summary and `fields` is read as a field of it. |
| KeyWords.FieldWordsRead | internal/redaction/redaction.go:360-374 | Without a dotted field marker, every key with the words of a library summary, `fields`, and more is read as a field of its side. |
| Spellings.BeginsIff | internal/redaction/redaction.go:465-485 | A canonical name begins with joined words if and only if the name begins with these words, in any spelling. |
| Spellings.SpellingDoesNotMatter | internal/redaction/redaction.go:465-485 | Neither which separator stands where nor the case of ASCII letters changes the words of a name. |
| Spellings.OneRune | internal/redaction/redaction.go:469-482 | Only hyphens, underscores, dots and Unicode white space divide words, and only ASCII capitals are lowered. |
| RedactionInWords.RedactedInWords | internal/redaction/redaction.go:100-175 | Main result. What happens to every attribute, whether it is kept, cut or omitted and with which record, in the words of its key and literal limits and reasons. |
| RedactionInWords.RecordsInWords | internal/redaction/redaction.go:100-175 | There is no other record. |
| RedactionInWords.SpanRedacted | internal/redaction/redaction.go:51-98 | Redaction changes attributes, error, records and events only; old records come first, and an error loses its message if and only if it is about encrypted reasoning, with one record. |
| SchemaPreserved.RedactionPreservesSchema | internal/redaction/redaction.go:51-77 | Main result. Every span that validation accepts is still accepted after redaction, with every event, for all options. |
| SchemaPreserved.SchemaKeysSurvive | internal/redaction/redaction.go:349-433 | No key that the schema requires is omitted, cut or changed. |
| SchemaPreserved.UnclassifiedPasses | internal/redaction/redaction.go:349-433 | A key with none of the tell-tale characters belongs to no redaction class. |
| SchemaLaws.SpanIdentity | internal/model/model.go:265-274 | A valid span stays valid under another identity if and only if both identifiers are not empty. |
| SchemaLaws.SpanName | internal/model/model.go:170-172 | Under another name, if and only if it is not empty. |
| SchemaLaws.SpanKind | internal/model/model.go:292-317 | Under another kind, if and only if it is one of the seven and the attributes, end and error it asks for are there. |
| SchemaLaws.SpanStatus | internal/model/model.go:173-192 | Under another status, if and only if it is one of the three and the error fits it. |
| SchemaLaws.SpanStart | internal/model/model.go:176-183 | With another start, if and only if it is there, in UTC and not after the end. |
| SchemaLaws.SpanEnd | internal/model/model.go:181-186 | With another end, if and only if there is none, or it is in UTC, not before the start, and fits a tool call's status. |
| SchemaLaws.SpanError | internal/model/model.go:187-195 | With another error, if and only if it is complete and fits the status and how a tool call ended. |
| SchemaLaws.SpanAttributes | internal/model/model.go:276-317 | With other attributes, if and only if their values are supported and those the kind asks for are there with their types. |
| SchemaLaws.SpanEvents | internal/model/model.go:198-202 | With other events, if and only if each is valid; redaction records do not matter. |
| SchemaLaws.EventIdentity | internal/model/model.go:265-274 | A valid event stays valid under another identity if and only if both identifiers are not empty. |
| SchemaLaws.EventName | internal/model/model.go:206-233 | A valid event stays valid under another name and category if and only if these belong together and what the name asks for is there. |
| SchemaLaws.EventTime | internal/model/model.go:213-217 | With another time, if and only if it is there and in UTC. |
| SchemaLaws.EventStatus | internal/model/model.go:218-220 | With another status, if and only if it is empty or one of the three. |
| SchemaLaws.EventError | internal/model/model.go:424-445 | With another error, if and only if it is complete and fits the name and a tool's status. |
| SchemaLaws.EventAttributes | internal/model/model.go:319-407 | With other attributes and records, if and only if values are supported and those the name asks for are there. |
| TidyNames.TidyCanonical | internal/redaction/redaction.go:465-485 | On lower-case names with single separators inside, the canonical form only replaces the separators. |
| Model.Validate | internal/model/model.go:163-204 | Finds no fault exactly when the span satisfies the schema. |
| Model.CountEvent | internal/model/model.go:206-233 | Finds no fault exactly when the event satisfies the schema. |
| Model.CountEventRequired | internal/model/model.go:319-353 | Finds no fault exactly when the attributes the event's name requires are there with their types. |
| Model.CountBadAttributes | internal/model/model.go:276-290 | Finds no fault exactly when every value is of a supported type. |
| Model.CountSpanRequired | internal/model/model.go:292-317 | Finds no fault exactly when the attributes the kind requires are there with their types. |
| Model.CountToolSpan | internal/model/model.go:355-379 | Finds no fault exactly when the tool status fits the span's end and error. |
| Model.CountToolEvent | internal/model/model.go:381-407 | Finds no fault exactly when the tool status fits the event. |
| Model.CountEventError | internal/model/model.go:424-445 | Finds no fault exactly when the event has the error its name requires. |
| Model.CountErrorFaults | internal/model/model.go:235-250 | Finds no fault exactly when the error has its fields and is not canceled and retryable at once. |
| Model.CountMissing | internal/model/model.go:478-491 | Finds no fault exactly when every required attribute is there with its type. |
| Truncation.CutIsLongest | internal/redaction/redaction.go:307-329 | The cut is at a rune boundary within the limit, and no later boundary is. |
| Truncation.TruncatedIsLongestPrefix | internal/redaction/redaction.go:307-329 | The result is the longest prefix of whole runes within the limit, for any bytes, and keeps valid UTF-8 valid. |
| Truncation.TruncateTwice | internal/redaction/redaction.go:307-329 | Truncating to m and then to n is truncating to the smaller. |
| Truncation.KeptWholeIffFits | internal/redaction/redaction.go:294-305 | A text is kept whole, and leaves no record, exactly when it is empty or within the limit. |
| Truncation.FallbackUnreachable | internal/redaction/redaction.go:321-327 | When the loop finds no boundary the first rune is wider than the limit. |
| Truncation.TruncateUtf8 | internal/redaction/redaction.go:307-329 | The loop computes that cut. |
| Utf8.FirstRuneIff | internal/redaction/redaction.go:315-320 | A rune is read where its encoding begins, and what begins no encoding is read as U+FFFD, a byte at a time. |
| Utf8.RunesOfEncode | internal/redaction/redaction.go:469-482 | Reading what was written rune by rune gives the runes back, and it is valid. |
| Utf8.EncodeOfRunes | internal/redaction/redaction.go:469-482 | Writing the runes of a valid text gives the text back. |
| Utf8.RunesOfCut | internal/redaction/redaction.go:315-320 | Cut at a rune boundary, the runes of a text are those of its two parts. |
| Names.CanonicalLaws | internal/redaction/redaction.go:465-485 | The canonical form is idempotent and valid UTF-8, and two names have the same one exactly when their pieces are the same. |
| Names.PiecesOfJoin | internal/redaction/redaction.go:465-485 | Splitting joined pieces gives the pieces back. |
| Names.TrimmingKeepsPieces | internal/redaction/redaction.go:466-466 | Trimming space does not change the pieces. |
| Names.WriteRunes | internal/redaction/redaction.go:467-483 | The one-pass loop writes the joined pieces of what it has read, and an underscore after a trailing separator. |
| Names.CanonicalName | internal/redaction/redaction.go:465-485 | The one-pass loop refines splitting, lowering and joining. |
| KeyOrder.KeyLessTotal | internal/redaction/redaction.go:262-269 | The comparison is a strict total order on keys. |
| KeyOrder.KeyLessTransitive | internal/redaction/redaction.go:262-269 | The comparison is transitive. |
| KeyOrder.LexLessIff | internal/redaction/redaction.go:262-269 | One string is less than another if and only if they agree up to a byte where the first ends or has the smaller byte. |
| KeyOrder.InKeyOrderUnique | internal/redaction/redaction.go:257-271 | There is one sorted list of a set of keys, so the result does not depend on map iteration. |
| KeyOrder.SortKeys | internal/redaction/redaction.go:257-271 | The keys, each once, in that order. |
| Summaries.BoundedMapAccounted | internal/redaction/redaction.go:226-255 | Main result. With distinct trimmed keys the kept entries are exactly the first 32 eligible ones by canonical name and key, cut to the limit, and every other entry has exactly one omission record. |
| Summaries.BoundedMapDeterministic | internal/redaction/redaction.go:279-292 | With distinct trimmed keys the attributes and the order of records do not depend on map iteration. |
| Summaries.KeptEntries | internal/redaction/redaction.go:233-253 | Of the first n entries the admitted ones are kept and nothing else is. |
| Summaries.OmittedEntries | internal/redaction/redaction.go:233-253 | Of the first n entries each one left out has one omission record and no other has any. |
| Summaries.SortEntries | internal/redaction/redaction.go:279-292 | The entries with trimmed keys, sorted. |
| Summaries.BoundEntries | internal/redaction/redaction.go:230-254 | The loop that counts retained entries computes the bounded map. |
| Summaries.StringMapAttributes | internal/redaction/redaction.go:226-255 | Sorting and bounding together. |
| Summaries.SummaryAttributes | internal/redaction/redaction.go:177-216 | Either nothing with one record saying why, or the text, name and fields with their records. |
| SummariesInWords.FieldIsInWords | internal/redaction/redaction.go:233-253 | What happens to each summary field, in words and literal limits: a long name, a sensitive one and a 33rd good one are omitted, each with its record, and any other text is cut to the limit. |
| SummariesInWords.RecordsOfSummary | internal/redaction/redaction.go:195-216 | The records of an allowed summary are exactly that of its text, if it was cut, and those of its fields. |
| TwoStages.SecondStageAgrees | internal/redaction/redaction.go:100-216 | Main result. For the six kinds of summary the library attaches, a second pass with the same options changes nothing and records nothing, but for the name of a tool output, which it omits with one record. |
| TwoStages.SecondPassIsIdentity | internal/redaction/redaction.go:100-216 | The same for any summary key whose name attribute passes. |
| TwoStages.SecondPassDropsName | internal/redaction/redaction.go:406-433 | And for any key whose name attribute does not. |
| TwoStages.FieldRule | internal/redaction/redaction.go:360-374 | A summary field attribute is read back as a field of its own side and name. |
| TwoStages.NameKeyRule | internal/redaction/redaction.go:406-421 | Whether a name attribute counts as a raw payload. |
| StreamRuns.ExportedOnce | stream.go:159-231 | Main result. However calls interleave, the first End or Error exports and no other call does; its events are those of the calls before it that add one, in order, and a final cancellation event exactly when it is a cancellation. |
| StreamRuns.AddingLaws | stream.go:111-157 | The calls that add an event are all the chunks, in order, and one FirstToken exactly when there is any. |
| StreamRuns.NothingToExport | stream.go:180-186 | Without End or Error nothing is exported, and a handle that began ended never exports. |
| StreamRuns.OpenedWithout | stream.go:81-86 | A handle opened without provider or model never exports. |
| StreamRuns.RunCollects | stream.go:111-157 | Until it ends a handle holds the events of the calls so far. |
| StreamSchema.ExportedSpanIsValid | internal/recorder/state.go:506-535 | Main result. What any run of a handle opened with provider and model exports is a valid span if and only if its observation and trace identifiers are not empty. |
| StreamSchema.ExportedSpanStaysValid | internal/recorder/state.go:506-535 | And it is valid after redaction with any options. |
| StreamSchema.EventsValid | internal/recorder/state.go:537-559 | Every event a stream exports is valid. |
| StreamSchema.FinalAttributesReady | stream.go:187-206 | The final attributes keep provider, model and integer latencies and counts, and carry the canceled flag exactly for a cancellation. |
| StreamSchema.CancellationEventValid | stream.go:233-241 | The cancellation event has its reason, its error and the flags of a cancellation. |
| StreamTimes.SpanEndsInTime | internal/recorder/state.go:514-516 | The span ends when the terminal call says, or at its start if that is later, if and only if the duration is an int64; otherwise the longest int64 after the start. |
| StreamTimes.LatencyAgrees | stream.go:142-195 | Over any run the exported first-token latency is there exactly when a first token was seen before the end, and is the one in its event. |
| StreamAttributes.UsageExported | model_call.go:160-176 | Main result. Over any run each of the five token counts is exported if and only if it is known or not zero, under its own key with its own value. |
| StreamAttributes.TotalExported | stream.go:187-195 | Over any run the total latency is the milliseconds from the start to the end. |
| StreamAttributes.NamesExported | stream.go:88-92 | Over any run provider, model and a positive retry attempt are exported as the opening gave them. |
| StreamAttributes.LabelsExported | stream.go:87-87 | Over any run service and correlation are exported, each text under its own key if it is not empty. |
| StreamAttributes.MetadataExported | stream.go:187-190 | Over any run metadata of the terminal call is exported, and of the opening where the call has none. |
| StreamAttributes.SummariesExported | stream.go:93-98 | Over any run the summaries of the opening and of the terminal call are exported. |
| StreamAttributes.ErrorExported | model_call.go:178-188 | Over any run the error attributes say what failed and how, whether it may be tried again and whether it is a cancellation, and there are none after End. |
| StreamAttributes.NothingElseExported | stream.go:187-231 | Over any run no other key is exported. |
| StreamEvents.ObservationExported | stream.go:198-225 | Over any run the identifiers, name, status, start, records and error of the exported observation. |
| StreamEvents.SpanExported | internal/recorder/state.go:506-535 | Over any run the span it becomes. |
| StreamEvents.EventIs | internal/recorder/state.go:537-559 | An event of the span says what the event of the observation says, under the category of its name. |
| StreamEvents.ChunkEventHolds | stream.go:111-130 | The event of a chunk: identifiers, time, index, summary, labels and metadata. |
| StreamEvents.FirstTokenEventHolds | stream.go:132-157 | The event of the first token: identifiers, time, latency, labels and metadata. |
| StreamEvents.CancellationEventHolds | stream.go:233-241 | The event of a cancellation: identifiers, time, reason, error and labels. |
| StreamEvents.ChunkIdsDiffer | stream.go:111-130 | Chunks with different indexes have events with different identifiers. |
| StreamObject.ModelSummaryAttributes | model_call.go:198-221 | An empty summary and a failing redaction give nothing, one that may not be kept gives one record saying why, and any other its texts under its own key and its records, for its fields sorted. |
| StreamObject.CaptureUnique | model_call.go:198-221 | With distinct trimmed field names there is only one such result. |
| StreamObject.CaptureHolds | internal/redaction/redaction.go:177-216 | Why a summary is refused, with its one record, and what it holds otherwise; no field with a sensitive or too long name is in it. |
| StreamObject.OpenStream | stream.go:68-109 | A stream opened on a summary as it was handed in is the handle of the state machine, opened on what the redaction makes of it. |
| StreamObject.Stream.AddChunk | stream.go:111-130 | Chunk on the object is the step of the state machine for the capture that the redaction makes of the summary handed in. |
| StreamObject.Stream.AddFirstToken | stream.go:132-157 | FirstToken on the object is the step of the state machine. |
| StreamObject.Stream.Finish | stream.go:180-231 | The terminal section on the object is the step of the state machine. |
| StreamObject.Stream.EndNow | stream.go:159-164 | End on the object is the step of the state machine for the capture that the redaction makes of the summary handed in. |
| StreamObject.Stream.Fail | stream.go:166-178 | Error on the object is the step of the state machine for the capture that the redaction makes of the summary handed in. |

## Left out

- HTTP requests, gzip, JSON text beyond the size law, environment parsing, endpoint resolution and credential validation: input and output of the process. Spans are taken to marshal.
- Clocks, random numbers and contexts: they are parameters. A context is done or not at the one place a call asks.
- Status and transport error classification in the exporter: one table; a response is a success or a fault with its flags.
- The field mapping of Datadog payloads: one table; only the end-time test and the encoded size remain.
- Error messages and types, and the structure of joined errors: an error is its operation, classification and flags, and joined errors are a list.
- Nil and empty maps and slices are one value, and a missing error in a map of counts is zero.
- Counters, sequence numbers and call indexes are unbounded integers.
- Deep copies: values have no aliases in the model, so that a caller changing a span it has handed over is not modelled.
- `sort.Slice`, `strings.Index`, `strings.TrimSpace` and `strings.Trim` are modelled by what they return. The trimming of invalid bytes at the end of a name is read forwards.
- Sessions, runs, model calls and tool calls: their handles have the shape of the stream's with less state. Canceled sessions and runs never set `error.canceled` (`session.go:196-222`), so no validity is claimed for them.
- Correlation merging, functional options, lifecycle events, snapshots, the Observer and the wrappers around recorder and exporter: they copy or delegate.
- `MetadataAttributes`: a call of the bounded map with another prefix.
- DatadogExporter.Exporter.Append: does not model how much larger Go makes a full slice, nor that a cleared queue drops its array, because neither can be observed.
- Model.Validate: counts the errors it would join and does not model their texts, because only their absence matters to a caller.
- StreamObject.Stream.Finish: does not model the export call that follows the critical section, because it delegates to the observer; the observation handed over is the one that would be exported.
