# Market intelligence platform: verified models

This project models the parts of the market intelligence platform that are hardest to get right
and proves what they promise, for all inputs, runs and interleavings. `dafny verify dfyconfig.toml`
checks all of it. The model and its proofs are all there is here: nothing was executed.

## What is modelled

**The semantic chunker** (`Text`, `Segments`, `Paragraphs`, `Sentences`, `WordRuns`, `Splitting`,
`Overlap`, `Packing`, `Chunking`, `ChunkGuarantees`, `ZeroOverlap`). The splitters are loops with their own
positions, proved to tile the text exactly; the packing loop with its two flushes is proved to lose,
invent and reorder nothing. Offsets refer to the text after two normalisations, because the text is
normalised once by `chunk_document` and once more by `_split_paragraphs`, and a second pass can
still change it. Overlap limits of 0/0 do not switch overlap off: `ZeroOverlap` says exactly when
words are repeated all the same, and on which documents.

**The in-memory bus** (`Bus`, `BusLedger`, `Replay`). Each operation is a method proved against a
function on the bus's value. `BusLedger` keeps books for one subscription at a time and balances them
over every run. Looking up a queue creates it, so even a peek subscribes.

**The in-memory cache** (`Cache`), with lazy eviction, claims and capped histories. The comment on
`append_history` promises a cap; with a cap of zero the slice keeps everything (`CapHolds`).

**The circuit breaker** (`Resilience`), each call split at its await, so that calls overlap and finish
late, and the rate at which a dead backend is still called.

**Alerting** (`Keys`, `Rules`, `AlertingProtocol`, `AlertingSafety`, `AlertingRefinement`, `Alerting`,
`AlertingSpec`, `AlertingWorker`, `AlertingDelivery`). The protocol is a state machine in which any number of workers interleave at every
await and any cache or bus call inside the retried operation may fail, before or after taking effect;
`AlertingRefinement` shows that its steps are what the awaits do to the bus and the cache modelled
above. The worker itself is a class over the bus, the cache and the breaker with the same faults: what
becomes of an event is decided by the markers and the lock it finds, the breaker and the faults its
attempts meet, and stated so for one event and for whole polls.

**Read models** (`ReadModel`, `ReadRuns`, `History`, `HistoryMerge`). The incremental peek is proved to
show what re-reading the whole subscription would, over every run of bus operations before, between
and after the peeks of its refreshes; the limited history query is compared with merging everything,
and shown to differ exactly when stored rows tie in time, other than versions of the oldest one.

**The live stream** (`LiveStream`): what a client with a bounded queue sees of the fan-out.

**Streaming indicators over a bounded history** (`Smoothing`, `Indicators`, `Windows`, `Fits`,
`BoundedHistory`, `PriceHistory`, `StreamWorker`, `StreamRuns`), over the reals. The comment on `history_maxlen`
says that keeping a bounded history leaves SMA, RSI and volatility exact. For SMA and volatility it
does; for RSI it does so only for a period of one (`RsiExactOnlyForOne`), so an error bound on its
averages is proved instead. Volatility divides by earlier prices and refuses those that are not
positive, while the first prices of a symbol are accepted whatever they are: one price of zero or less
wedges its symbol for good (`WedgedAfter`, `SymbolWedged`). The worker is proved over whole runs, with
a clock that advances between polls, so that markers expire.

**The exchange reconnect loop** (`Exchange`), composed with the breaker: a lexicographic measure, the
number of connections, what is counted and published, and how a dead feed ends.

## What is taken as given

- Clocks, the results of I/O and the choices of the scheduler are parameters or free choices.
- Hashes are left out as injective; validation of payloads is a function from text to a value or nothing.
- Equal event ids mean the same event, hence the same alerts (`EventsHaveOwnKeys` and `ColonsCollide` say
  what the key text itself guarantees). Alert keys are never empty.
- During one poll of a worker the clock stands still, so no lock or marker expires inside it; in the
  interleaved protocol locks and markers do not expire at all. In the runs of the stream worker the clock
  advances from poll to poll, and nobody else writes the worker's markers.
- Real numbers stand for floating-point ones, integers for timestamps.

## Model

| member | source | states |
|---|---|---|
| `Segments.NormalizeKeepsWords` | services/ai/rag/chunking.py:26-27 | Normalising a text keeps all of its words, in order. |
| `Segments.NothingReplaced` | services/ai/rag/chunking.py:26-27 | A text without the pair of carriage return and newline is left as it is. |
| `Segments.PairReplaced` | services/ai/rag/chunking.py:26-27 | Every such pair becomes one newline, and what stands on either side of it is replaced on its own. |
| `Segments.NormalizeTwiceDiffers` | services/ai/rag/chunking.py:200 | Normalising twice is not the same as normalising once: the text `a\r\r\nb` changes again, which is why offsets refer to the twice normalised text. |
| `Paragraphs.BlankLineEndIsLongest` | services/ai/rag/chunking.py:37 | The separator found at a newline is the longest one the pattern for blank lines matches there. |
| `Paragraphs.SplitOnBlankLines` | services/ai/rag/chunking.py:37 | The split parts and separators alternate, follow one another without a gap over the whole text, and no part holds a blank line. |
| `Paragraphs.SplitParagraphs` | services/ai/rag/chunking.py:30-50 | Every paragraph's text is exactly its range of the normalised text, nothing but white space lies outside the ranges, and paragraphs are maximal. |
| `Sentences.SplitOnBoundaries` | services/ai/rag/chunking.py:59 | Splitting at white space after a full stop, exclamation or question mark: the pieces cover the text in order and none contains a boundary. |
| `Sentences.FindPiece` | services/ai/rag/chunking.py:65-69 | Searching from the last sentence's end finds the stripped piece at its own place and never an earlier look-alike, so neither fallback is reached. |
| `Sentences.SplitSentences` | services/ai/rag/chunking.py:53-79 | Every sentence's text is exactly its range of the paragraph, the ranges tile it up to white space, and sentences are maximal. |
| `WordRuns.FindWords` | services/ai/rag/chunking.py:87 | The matches are the words of the text at their own positions. |
| `WordRuns.GreedyStaysAhead` | services/ai/rag/chunking.py:93-106 | After every run the greedy split has used at least as many words as any other in-order packing. |
| `WordRuns.GreedyIsMinimal` | services/ai/rag/chunking.py:93-106 | No in-order packing of the words within both limits has fewer runs than the greedy one. |
| `WordRuns.SplitLongSentence` | services/ai/rag/chunking.py:82-116 | The pieces are single-spaced runs of the sentence's words at their ranges, each within the limits or one word, each too full for the next word, and no in-order packing uses fewer. |
| `Splitting.SplitParagraph` | services/ai/rag/chunking.py:128-135 | Cutting an over-long paragraph gives segments that tile it, each within both limits or a single over-long word. |
| `Splitting.SplitSegments` | services/ai/rag/chunking.py:119-136 | The segments tile the normalised text up to white space, hold its words in order, each is within both limits or a single word longer than `max_chars`, and the leading paragraphs that fit are segments as they are. |
| `Overlap.CarriedIsLongest` | services/ai/rag/chunking.py:147-155 | The words carried over are the longest suffix that stays within the overlap limits that are set. |
| `Overlap.OverlapIdempotent` | services/ai/rag/chunking.py:139-156 | The overlap of an overlap is the overlap itself. |
| `Overlap.OverlapText` | services/ai/rag/chunking.py:139-156 | The backwards loop returns exactly that longest suffix, single-spaced. |
| `Chunking.ValidateConfig` | services/ai/rag/chunking.py:167-175 | A configuration is accepted exactly when both size limits are positive and both overlap limits are not negative. |
| `Chunking.MakeOverlap` | services/ai/rag/chunking.py:178-190 | The overlap segment carries the overlap text, marked as overlap, ends where the flushed segments end and starts as far before that as its text is long, but not before them; there is none when the overlap is empty or is the chunk itself. |
| `Chunking.Flush` | services/ai/rag/chunking.py:211-242 | A flush emits one chunk for the segments in hand and keeps only their overlap; with nothing to say it emits nothing. |
| `Chunking.PlaceSegment` | services/ai/rag/chunking.py:244-268 | One step of the packing loop keeps the whole packing invariant: emitted groups linked by their overlap, and what is in hand empty or ending in a fresh segment, so the branch for all-overlap segments is never taken. |
| `Chunking.ChunkDocument` | services/ai/rag/chunking.py:193-271 | The error is the first violated limit; otherwise the chunks come from groups that hold all cut segments in order, each group starting with the overlap of the one before or with none, and leading paragraphs that fit are not cut. |
| `ChunkGuarantees.Coverage` | services/ai/rag/chunking.py:193-271 | Each chunk's words are a possibly empty suffix of the previous chunk's words followed by fresh words, and the fresh words of all chunks together are exactly the document's words in order. |
| `ChunkGuarantees.Sizes` | services/ai/rag/chunking.py:244-265 | Every chunk is non-empty, numbered by its place, bears its document's id, counts its own words, and is within both limits or exactly one word longer than `max_chars`. |
| `ChunkGuarantees.Fullness` | services/ai/rag/chunking.py:248-260 | No chunk has room for the segment that comes next. |
| `ChunkGuarantees.ChunkText` | services/ai/rag/chunking.py:159-160 | Each chunk's text is the words it carries over from the chunk before, single-spaced, and the segments placed in it, with one space between each two. |
| `ChunkGuarantees.OverlapOnlyBeforeLongWord` | services/ai/rag/chunking.py:258-265 | A chunk made of overlap only stands directly before a chunk that starts with a word longer than `max_chars`. |
| `ChunkGuarantees.EveryChunkIsFresh` | services/ai/rag/chunking.py:244-268 | If no word of the document is that long, every chunk carries a fresh segment. |
| `ChunkGuarantees.NoMoreChunksThanSegments` | services/ai/rag/chunking.py:244-270 | If no word is that long, there are at most as many chunks as segments. |
| `ZeroOverlap.DroppedWhen` | services/ai/rag/chunking.py:178-190 | With both overlap limits zero, a chunk hands on nothing exactly when its text is single-spaced; otherwise it hands on every word of it, single-spaced. |
| `ZeroOverlap.AtBoundary` | services/ai/rag/chunking.py:248-268 | With both overlap limits zero, all words of a chunk are repeated by the next one or none; all are, exactly when the chunk is not single-spaced and the next segment fits behind its single-spaced words or is an over-long word. |
| `ZeroOverlap.NothingRepeated` | services/ai/rag/chunking.py:178-190 | If every segment but the last is single-spaced, no chunk repeats a word with both overlap limits zero. |
| `ZeroOverlap.EverythingRepeated` | services/ai/rag/chunking.py:147-185 | For every document with a paragraph, other than the last, whose words stand more than one character apart somewhere, there are size limits with which, although both overlap limits are zero, the second chunk starts with every word of the first. |
| `ZeroOverlap.RepeatingDocument` | services/ai/rag/chunking.py:184 | The document `a  b`, blank line, `c`, cut into chunks of five characters with both overlap limits zero, is one of them: every outcome has a second chunk that starts with both words of the first. |
| `ZeroOverlap.OneDivision` | services/ai/rag/chunking.py:30-50 | Division into paragraphs is determined: two lists of paragraphs that cover a text, hold no blank line and are separated by one are equal. |
| `ChunkGuarantees.ChunkSpan` | services/ai/rag/chunking.py:221-222 | A chunk spans from the start of its first segment to the end of its last, and the span is not empty. |
| `ChunkGuarantees.StartsWhere` | services/ai/rag/chunking.py:187-190 | A chunk that carries k words starts that many characters before the end of the chunk before it as these words take single-spaced, but not before that chunk's start; one that carries none starts where its first segment does. |
| `ChunkGuarantees.OffsetsAdvance` | services/ai/rag/chunking.py:221-222 | Neither offset goes back from one chunk to the next, and the end moves forward exactly when the next chunk has a fresh segment. |
| `ChunkGuarantees.OffsetsInside` | services/ai/rag/chunking.py:221-222 | All offsets lie inside the twice normalised text. |
| `ChunkGuarantees.OffsetsCover` | services/ai/rag/chunking.py:221-222 | Every character of that text that is not white space lies in some chunk's range. |
| `Bus.FanOut` | libs/common/bus.py:156-166 | The fan-out loop gives every known subscription exactly one copy at the end of its queue, in whatever order it visits them. |
| `Bus.InMemoryBus.Publish` | libs/common/bus.py:139-166 | A seen id changes nothing; a new one is remembered, takes the topic's next number, and reaches every subscription known by then. |
| `Bus.InMemoryBus.Receive` | libs/common/bus.py:170-183 | Takes the oldest messages from the queue into flight, leaving the rest in order: no more than asked for, and fewer only if the queue is empty afterwards; creates the subscription. |
| `Bus.InMemoryBus.Complete` | libs/common/bus.py:185-186 | Takes the message out of flight and changes nothing else. |
| `Bus.InMemoryBus.DeadLetter` | libs/common/bus.py:188-192 | Takes the message out of flight and appends it to its dead-letter queue, whether or not it was in flight. |
| `Bus.InMemoryBus.Peek` | libs/common/bus.py:194-216 | Returns the first messages at or after the given number and leaves the queue as it is, but creates the subscription. |
| `Bus.InMemoryBus.ReceiveDeadLetter` | libs/common/bus.py:218-226 | Returns the whole dead-letter queue in order and empties it. |
| `BusLedger.ViewSteps` | libs/common/bus.py:139-226 | What any bus operation does to one subscription, and that operations on others leave it alone. |
| `BusLedger.PublishKeeps` | libs/common/bus.py:139-166 | Publishing keeps a subscription's accounts balanced, its numbers without gaps and its ids distinct. |
| `BusLedger.ReceiveKeeps` | libs/common/bus.py:170-183 | Receiving keeps the accounts balanced: what leaves the queue is in flight once. |
| `BusLedger.DeadLetterKeeps` | libs/common/bus.py:188-192 | Dead-lettering keeps the accounts balanced if and only if the message was in flight. |
| `BusLedger.RunKeeps` | libs/common/bus.py:139-226 | Every run that dead-letters only messages in flight keeps them balanced. |
| `BusLedger.NothingLost` | libs/common/bus.py:139-226 | After any such run each accepted message is in exactly one of queue, flight, completed, dead-letter queue or drained; the queue is the newest part of what was accepted, numbered without gaps, and no id was accepted twice. |
| `BusLedger.RunDelivers` | libs/common/bus.py:139-226 | In every run, disciplined or not, a subscription accepts each id at most once, and one that exists from the start accepts every id the topic comes to see. |
| `BusLedger.PeekIsSlice` | libs/common/bus.py:194-216 | A peek that resumes from a number returns a contiguous run of the queue. |
| `BusLedger.PeekStartsAt` | libs/common/bus.py:209-215 | The run starts exactly at the first message with that number or a higher one. |
| `BusLedger.HeadIs` | libs/common/bus.py:216 | What is returned is the first so many messages, or all but the last so many for a negative number. |
| `Replay.DecimalReads` | services/alerting/replay.py:37 | Reading a decimal index gives the index back, and it contains no colon. |
| `Replay.ReplayIdsDiffer` | services/alerting/replay.py:33-37 | Two ids given in one replay differ, whatever the dead letters' own ids and the suffix are. |
| `Replay.ReplayDeadLetters` | services/alerting/replay.py:26-42 | Drains the dead-letter queue, publishes every body again in order under its new id, and reports how many there were. |
| `Replay.ReplayAppends` | services/alerting/replay.py:33-41 | A subscription's queue gains exactly the messages whose new id the topic had not seen, in order and numbered on. |
| `Replay.ReplayRestores` | services/alerting/replay.py:26-42 | Afterwards the dead-letter queue is empty, and every dead letter came back, whole and in order, if and only if none of the new ids was seen before. |
| `Replay.ReplayConserves` | services/alerting/replay.py:26-42 | A replay keeps the accounts of every subscription balanced. |
| `Replay.TwoReplays` | services/alerting/replay.py:33-37 | Replaying a second dead-letter queue of the topic with the same suffix, a message is published again exactly when its new id was unseen and the first replay had not the same message at the same place; so one that lies in both queues comes back from the first replay only. |
| `Cache.InMemoryCache.Get` | libs/common/redis_client.py:180-185 | Reads what is live at that time and evicts the key if it has expired. |
| `Cache.InMemoryCache.SetIfAbsent` | libs/common/redis_client.py:194-211 | Claims the key exactly when it is absent or expired, a stored null counting as present. |
| `Cache.InMemoryCache.AppendHistory` | libs/common/redis_client.py:242-249 | Appends one row and keeps the slice of the last rows. |
| `Cache.EvictionIsInvisible` | libs/common/redis_client.py:180-185 | Evicting on a read changes what no later read and no later claim can tell. |
| `Cache.StoredReadsBack` | libs/common/redis_client.py:187-192 | A stored value reads back up to and including its expiry time, for ever if it has none, and other keys are untouched. |
| `Cache.ClaimIsExclusive` | libs/common/redis_client.py:194-211 | A claim succeeds exactly on a key that is not live, and a failed claim changes nothing a reader sees. |
| `Cache.LockExcludes` | libs/common/redis_client.py:194-211 | Within the lifetime of a claimed lock, no further claim succeeds, whatever reads, writes to other keys and claims come between. |
| `Cache.HistoryIsLastRows` | libs/common/redis_client.py:242-254 | Cutting after every append keeps the same rows as cutting everything once at the end. |
| `Cache.HistoriesApart` | libs/common/redis_client.py:242-254 | Appending to one symbol's history leaves every other symbol's alone. |
| `Cache.CapHolds` | libs/common/redis_client.py:242-249 | The cap on a history holds for every series of appends if and only if it is positive; zero keeps every row. |
| `Cache.NegativeKeepsNone` | libs/common/redis_client.py:249 | With a negative cap nothing is ever kept. |
| `Resilience.CircuitBreaker.Admit` | libs/common/resilience.py:92-113 | Before a call: an open circuit rejects unless the reset timeout has passed, a half-open one lets a single probe through. |
| `Resilience.CircuitBreaker.Finish` | libs/common/resilience.py:119-131 | After a call: its outcome is recorded in whatever state the circuit is by then, and a probe gives its lock back. |
| `Resilience.FinishLeaves` | libs/common/resilience.py:133-155 | After a success, in whatever state it found the circuit, every call is let through and the count starts again; after a failure that opens it or finds it half-open nothing is let through for the reset timeout and then one probe is; any other failure only adds one to the count. |
| `Resilience.AdmitsWhen` | libs/common/resilience.py:92-113 | A call is let through exactly when the circuit is closed, or its timeout has passed and no probe is under way. |
| `Resilience.CountsFailuresInARow` | libs/common/resilience.py:133-155 | Over every run from the start, overlapping calls included: while the circuit is closed its count is the number of calls that finished in failure since the last that finished in success. |
| `Resilience.OpensExactlyAt` | libs/common/resilience.py:133-155 | From closed it opens exactly with the failure that makes that number reach the threshold, and until then every call is let through. |
| `Resilience.BreakerIsSound` | libs/common/resilience.py:85-155 | For every interleaving of overlapping calls, late finishers included: closed means no opening time and fewer failures than the threshold, otherwise at least that many, and at most one probe is in flight; this holds if and only if the threshold is positive. |
| `Resilience.QuietWhileOpen` | libs/common/resilience.py:94-98 | From an opening until the reset timeout has passed, no call is let through, however late calls already in flight fail; only a success ends that sooner. |
| `Resilience.RateBound` | libs/common/resilience.py:133-150 | Sequential calls to a backend that always fails reach it at most `threshold` times plus once per reset timeout since the circuit first opened. |
| `Resilience.RateBoundIsTight` | libs/common/resilience.py:133-150 | A caller that asks again exactly when each timeout is over reaches that bound. |
| `AlertingProtocol.LocksStep` | services/alerting/service.py:217-251 | Every await of every worker keeps each lock tied to the one worker inside that event's processing. |
| `AlertingSafety.NoTwoInside` | services/alerting/service.py:217-251 | In every run of any number of workers, at most one is inside the processing of an event. |
| `AlertingSafety.AlertsOnce` | services/alerting/service.py:269-285 | Whatever fails and however often, the alert topic accepts each dedupe key at most once, and a processed event has all its alerts out. |
| `AlertingSafety.NoEventLost` | services/alerting/service.py:194-285 | Once no worker is at an event, a completed delivery of it means that it is marked as processed with all alerts out, or that one of its deliveries was dead-lettered. |
| `AlertingRefinement.StepIsReal` | services/alerting/service.py:194-285 | What each await really does to the bus and the cache is what the protocol's step says: the markers and locks it reads are those in the cache, the ids it has seen are the bus's, and its list of alerts is what a subscription accepted. |
| `AlertingRefinement.RunIsReal` | services/alerting/service.py:194-285 | The same over every run of any number of workers, however they interleave and whatever fails. |
| `AlertingRefinement.AlertsReallyOnce` | services/alerting/service.py:269-285 | So on the real bus a subscription accepts every alert id at most once, and has all alerts of every event that the real cache shows as processed. |
| `AlertingSafety.EachInOnePlace` | services/alerting/service.py:110-122 | Every message that arrived is in exactly one of the queue, one worker's hands, completed or dead-lettered, and every worker's counters add up. |
| `AlertingSafety.WorkFalls` | services/alerting/service.py:269-292 | Every await of a busy worker, failed or not, lowers a bound on the awaits it still needs. |
| `AlertingSafety.SettledInTime` | services/alerting/service.py:194-301 | Every message a worker takes up is settled within that many of its awaits, however the workers interleave and whatever fails. |
| `AlertingSafety.WorkAtStart` | services/alerting/service.py:260-292 | The bound when a message is picked up: five awaits and, for each allowed attempt, three per alert and one. |
| `Alerting.KeysApart` | services/alerting/service.py:41-50 | Processed, published and lock keys never coincide, and published keys tell dedupe keys apart. |
| `Alerting.EventKeysTell` | services/alerting/service.py:41-50 | For topics free of colons, two events share a processed marker or a lock if and only if topic and id are the same. |
| `AlertingWorker.AlertingService.Operation` | services/alerting/service.py:269-285 | One attempt, failing at the call the given fault names: bus, cache and verdict come out as the specification says; it publishes only alerts not yet marked, marks only what the bus has accepted, sets no lock, and if it succeeds all alerts are out and the event is marked. |
| `AlertingWorker.NeverResent` | services/alerting/service.py:275-284 | Once an alert is marked as published, no later attempt hands it to the bus again. |
| `AlertingWorker.AlertingService.ProcessWithRetry` | services/alerting/service.py:260-301 | The attempts, each with its own fault, come to what the specification says: between one and the allowed number, failure only after all of them, and one retry counted for each but the first. |
| `AlertingWorker.AlertingService.ProcessEvent` | services/alerting/service.py:194-258 | A delivery is a duplicate exactly when its event is marked or locked; otherwise it is processed exactly when the breaker admits a call and one of the attempts meets no fault, refused untried exactly when the breaker does not, and dead-lettered in all other cases; the breaker learns the outcome of an admitted call; it is settled once, and no lock stays behind. |
| `AlertingWorker.AlertingService.HandleMessage` | services/alerting/service.py:159-192 | A message of another topic or with an invalid body is dead-lettered and marks nothing; any other ends as its markers, lock, the breaker and its faults decide; counters, bus, cache and breaker afterwards follow from those before and the faults; a marker newly set means all its alerts are out, and no other event's marker is set. |
| `AlertingWorker.AlertingService.PollOnce` | services/alerting/service.py:110-122 | For every script of faults the whole state after a poll is that of the specification; each message the two queues offer is judged so in its turn and settled once, the refused are exactly those the breaker did not admit, dead-letters are queued in order, no lock stays behind, and every processed marker set during the poll is that of a message of the poll with all its alerts out. |
| `AlertingWorker.MarkersExplained` | services/alerting/service.py:269-285 | A processed marker that a poll set belongs to one of its messages, and all alerts of that event are on the bus. |
| `AlertingSpec.AttemptFails` | services/alerting/service.py:269-285 | An attempt fails if and only if the faulty call is one it gets to: reading any alert's marker, publishing or marking an alert that is the first with its key and not yet marked, or the last write. |
| `AlertingSpec.RetriesSucceed` | services/alerting/service.py:260-301 | The retries succeed exactly when one of the attempts allowed meets no fault, and stop at the first that does. |
| `AlertingSpec.ProcessIsDecided` | services/alerting/service.py:194-258 | How every event ends, in one statement: duplicate exactly when marked or locked; processed exactly when not, the breaker admits a call at that time and one of the attempts meets no fault; refused, with no attempt made, exactly when the breaker rejects; otherwise dead-lettered after all attempts; and what the breaker is afterwards. |
| `AlertingDelivery.AlertsArrive` | services/alerting/service.py:269-285 | However many attempts it takes and whatever they fail at, every subscription of the alert topic gets the first of an event's new alerts in order, without a gap, one rendered copy each; all of them if the event is processed, none if it is a duplicate or refused. |
| `AlertingDelivery.MarkersLast` | services/alerting/service.py:275-292 | The markers of a processed event and of each of its alerts not marked before hold for 86400 seconds from then, to the instant. |
| `Rules.EvaluateSignal` | services/alerting/rules.py:26-100 | The alerts are those of the fixed list of rules that fire, in order, with their severities. |
| `Rules.SignalAlerts` | services/alerting/rules.py:26-100 | No two alerts of one signal share a dedupe key, and none is reported for a rule that does not fire. |
| `Rules.RaisedWhen` | services/alerting/rules.py:26-100 | Each of the four alerts in plain terms: the flag gives a critical one, an index at or above the upper limit a high one, at or below the lower and under the upper a medium one, volatility at or above its limit a high one; and there are no others. |
| `Rules.EvaluateInsight` | services/alerting/rules.py:102-128 | One alert if and only if the sentiment is at or above the threshold or at or below its negative, critical exactly from the higher threshold on. |
| `Rules.RulesHaveOwnKeys` | services/alerting/rules.py:162-171 | Different rules broken by one event have different keys. |
| `Rules.EventsHaveOwnKeys` | services/alerting/rules.py:162-171 | Events of different kinds, or with different ids free of colons, never share a key. |
| `Rules.KeyTells` | services/alerting/rules.py:162-171 | As long as only timestamps have colons in them, two keys are equal if and only if kind, event id, symbol, rule and timestamp are. |
| `Rules.ColonsCollide` | services/alerting/rules.py:162-171 | Every signal whose event id has a colon in it shares its keys with another event id and symbol. |
| `ReadModel.RecentPayloads.Refresh` | services/api/service.py:475-525 | The loop of peeks, with its chunk size, cap and early ends, comes to what `CatchUp` says about the subscription as each peek finds it. |
| `ReadModel.RefreshAgrees` | services/api/service.py:475-525 | If the subscription grows between the peeks, the model afterwards holds the last 500 valid payloads below the cursor, and the refresh looked at each message between the old and the new cursor exactly once. |
| `ReadModel.PayloadsAre` | services/api/service.py:500-513 | Wherever it stands, a message contributes what its body validates to, and nothing if it does not; the others contribute as before. |
| `ReadModel.PayloadsHold` | services/api/service.py:500-513 | A payload is among those of a log if and only if some message of the log validates to it. |
| `ReadModel.PeekContinues` | services/api/service.py:494-499 | A peek at the cursor returns exactly the next messages after those below it. |
| `ReadModel.RecentPayloadsNewestFirst` | services/api/service.py:527-538 | A listing refreshes the model and shows its newest payloads, newest first; a limit of zero or less reads nothing. |
| `ReadModel.NewestAt` | services/api/service.py:537-538 | A listing starts with the newest payload and goes back one by one, as many as asked for or as there are. |
| `ReadModel.UpToDate` | services/api/service.py:527-538 | Up to the window size, and unless the cap cut the refresh short, the listing is the newest valid payloads of the whole subscription as one of its peeks found it. |
| `ReadModel.ListingIsExact` | services/api/service.py:537-538 | Within the window the bounded model lists what re-reading the whole log would. |
| `ReadModel.ListingBeyondWindow` | services/api/service.py:302-305 | For a limit above the window it does so if and only if there are no more payloads than the window holds. |
| `ReadModel.BacklogCaughtUp` | services/api/service.py:493-514 | A backlog nobody adds to is caught up after so many refreshes exactly when they can hold it, 2000 messages each. |
| `ReadRuns.RunGrows` | libs/common/bus.py:139-226 | Over any run of bus operations without a receive from it, a subscription only grows and keeps its consecutive numbers and its first one. |
| `ReadRuns.AlwaysNumbered` | libs/common/bus.py:139-226 | On every bus that came about by bus operations the numbers of a queue are consecutive up to the topic's next one. |
| `ReadRuns.SnapshotsGrow` | services/api/service.py:493-514 | With any operations but such a receive before each peek, the peeks of a refresh find the subscription growing from what it was. |
| `ReadRuns.RoundsKeep` | services/api/service.py:475-525 | From a fresh model, through any number of refreshes with anything but such a receive before each of their peeks: the model holds the last 500 valid payloads below the cursor, and each message below it was looked at exactly once, in order. |
| `ReadRuns.ListingAfterRun` | services/api/service.py:527-538 | After any such run, a listing within the window whose refresh was not cut short is what reading the whole subscription again would list. |
| `History.InMemoryTimeSeriesStore.History` | libs/common/druid.py:170-199 | A query answers the matching rows as they came, or with a positive limit the newest of them by time, or none. |
| `History.DedupeRows` | services/api/service.py:606-618 | One row per key, in the place of the first and with the value of the last. |
| `History.DedupeKeepsLast` | services/api/service.py:606-618 | A row survives exactly when it is the last with its key, so a cached row wins over a stored one. |
| `History.SortSorts` | services/api/service.py:418 | Ordering by time gives the same rows in time order. |
| `History.SortIsStable` | services/api/service.py:418 | Rows of the same instant keep their order. |
| `HistoryMerge.MarketHistory` | services/api/service.py:405-424 | The rows answered are in time order, one per key; without a limit a row is among them if and only if it has the symbol asked for and a time in the closed range and is the last of its event, symbol and time among the store's ticks followed by the cached rows; with one there are no more than it says, all of them such rows. |
| `HistoryMerge.MatchingCounts` | libs/common/druid.py:181-188 | A query selects each row as often as the store holds it if its symbol is the one asked for and its time lies in the closed range, and not at all otherwise. |
| `HistoryMerge.MatchingConcat` | libs/common/druid.py:181-188 | And in the store's order. |
| `HistoryMerge.AnswerIsCurrent` | services/api/service.py:405-424 | The same end to end, for every store, cache, symbol, range and limit, of the function the method is proved against. |
| `HistoryMerge.MergeIsPutting` | services/api/service.py:416-418 | Deduplicating and sorting everything is the same as putting the cached rows one by one into the deduplicated, sorted stored ones. |
| `HistoryMerge.PushdownIsExact` | services/api/service.py:405-424 | Whatever the store holds, where the limited query is right without cached rows it is right with any, unless a row both stored and cached ties in time with a stored row of another key. |
| `HistoryMerge.TieBreaksPushdown` | services/api/service.py:419-423 | When two different stored rows tie, there is a limit for which the answer is wrong without cached rows or with one of the two cached. |
| `HistoryMerge.VersionsBreakPushdown` | libs/common/druid.py:170-199 | When the store holds two versions of a row that is not the oldest, there is a limit for which the answer has one row too few. |
| `HistoryMerge.ExactForEveryCache` | services/api/service.py:405-424 | Whatever the store holds, the limited query answers what merging everything would for every cache and every limit if and only if, in time order, no two stored rows share an instant but versions of the oldest row. |
| `HistoryMerge.OneRowPerKey` | services/api/service.py:405-424 | With one stored row per key that condition says that no two stored rows have the same time. |
| `LiveStream.LiveStreamBroker.UpdateSymbols` | services/api/service.py:130-137 | A registered client then follows a symbol if and only if it is the stripped, upper-cased form of one in its frame that is not blank; an unknown client is refused. |
| `LiveStream.LiveStreamBroker.Fanout` | services/api/service.py:210-228 | Each client that follows the symbol gets the message at the end of its queue, a full queue losing its oldest message, every other client keeps its queue, and exactly the losses are counted. |
| `LiveStream.ClientSeesNewest` | services/api/service.py:121-228 | For every client and interleaving: what it read and what waits is in order part of what matched its symbols at fan-out, the waiting messages are the newest without a gap and at most 1000, and enqueued is read plus waiting plus lost. |
| `LiveStream.FullAfterLoss` | services/api/service.py:222-228 | Right after a loss the queue is exactly the newest 1000 messages enqueued. |
| `Indicators.ExponentialMovingAverage` | services/stream/indicators.py:22-33 | The loop computes the mean of the first window smoothed on with every later price. |
| `Indicators.EmaBetween` | services/stream/indicators.py:22-33 | The moving average stays between the lowest and the highest price. |
| `Indicators.RelativeStrengthIndex` | services/stream/indicators.py:36-62 | The loops compute the two Wilder averages and the index of them. |
| `Indicators.WilderAverage` | services/stream/indicators.py:47-52 | The loop's division by the period is one step of the common smoothing recurrence. |
| `Indicators.RsiIsShare` | services/stream/indicators.py:54-62 | Whenever there was any movement the index is the gains' share of it, times 100. |
| `Indicators.RsiInRange` | services/stream/indicators.py:36-62 | The index lies between 0 and 100, through every zero case. |
| `Indicators.RsiMirrors` | services/stream/indicators.py:36-62 | Turning the prices upside down turns the index upside down. |
| `Indicators.RsiIgnoresScale` | services/stream/indicators.py:36-62 | The index does not change when all prices are multiplied by a positive number. |
| `Windows.VarianceZero` | services/stream/indicators.py:118-125 | The branch for a baseline without variance is taken exactly when all its prices are equal. |
| `Windows.SlopeOfLine` | services/stream/indicators.py:95-100 | Prices on a straight line have exactly its gradient as their slope. |
| `Fits.MeanIsBest` | services/stream/indicators.py:13-19 | The squared distances of the prices from any value come to n times the variance and n times the squared distance of that value from the mean. |
| `Fits.WindowedAre` | services/stream/indicators.py:65-78 | The moving average is the mean of the newest prices, volatility the variance of their returns, and both need a full window. |
| `Fits.ReturnsAt` | services/stream/indicators.py:65-78 | A return is the gain as a share of the earlier price. |
| `Fits.EmaFirstStep` | services/stream/indicators.py:22-33 | The first price after the seed weighs two parts in n + 1 against the mean of the window. |
| `Fits.LineMisfit` | services/stream/indicators.py:81-100 | Every straight line misses the prices by as much as the one with the slope used, and more by exactly how much its height and slope differ. |
| `Fits.SlopeIsLeastSquares` | services/stream/indicators.py:81-100 | So the slope a trend is read from is that of the least-squares line, and of no other. |
| `Fits.TrendOfLine` | services/stream/indicators.py:96-100 | A window on a straight line is flat, climbing or falling as its gradient is, with the tolerance on both sides. |
| `Fits.DeviatesBy` | services/stream/indicators.py:118-125 | The squared test decides whether the distance is at least so many standard deviations, or at least the threshold itself when there are none. |
| `Fits.ZScoreIs` | services/stream/indicators.py:103-125 | The z-score test compares the latest price with mean and standard deviation of the window before it. |
| `Fits.EwmaIs` | services/stream/indicators.py:128-158 | The EWMA test compares it with the exponentially weighted baseline of everything before it. |
| `Fits.EwmaAfterConstant` | services/stream/indicators.py:141-152 | After a constant price, a jump moves the baseline by alpha times itself and its variance by alpha times its square. |
| `Windows.DetectEwmaAnomaly` | services/stream/indicators.py:128-158 | The loop computes the EWMA mean and variance of all prices but the latest and compares the latest with them. |
| `Smoothing.SmoothForgets` | services/stream/indicators.py:31-32 | Two starting values of the recurrence differ after n steps by their difference times 1 - alpha to the power n, exactly. |
| `Smoothing.TruncationError` | services/stream/indicators.py:22-33 | Smoothing only the last m values differs by at most the range times 1 - alpha to the steps after the seed. |
| `BoundedHistory.WindowsAreExact` | services/stream/service.py:62-83 | Average, volatility, trend and z-score come out the same from any kept tail that covers their window. |
| `BoundedHistory.EmaError` | services/stream/service.py:62-83 | The moving average over the kept prices is off by at most (1 - alpha)^(m - w) times the price range. |
| `BoundedHistory.EmaExactOnlyForOne` | services/stream/service.py:70-72 | Over positive prices it is exact for every longer series if and only if its window is one. |
| `BoundedHistory.WilderError` | services/stream/service.py:62-83 | Both Wilder averages are off by at most (1 - 1/period)^(m - 1 - period) times the price range. |
| `BoundedHistory.RsiExactOnlyForOne` | services/stream/service.py:70-71 | Over positive prices the index of the kept ones is exact for every longer series if and only if its period is one, although the comment on `history_maxlen` promises it for all. |
| `BoundedHistory.EwmaMeanError` | services/stream/service.py:70-72 | The EWMA mean is off by at most (1 - alpha)^(m - 1) times the price range. |
| `BoundedHistory.EwmaVarianceError` | services/stream/service.py:70-72 | The EWMA variance is off by at most `VarianceBound` times the squared price range. |
| `BoundedHistory.VarianceBoundIs` | services/stream/service.py:70-72 | That bound falls like k times the geometric term. |
| `PriceHistory.KeptCoversWindows` | services/stream/service.py:74-83 | What is kept covers every window eight times over. |
| `PriceHistory.KeepsNoMore` | services/stream/service.py:74-83 | And exactly eight times the longest of the windows, and one. |
| `PriceHistory.JudgedReadings` | services/stream/service.py:133-160 | What an accepted event is published with: moving average, volatility, trend and z-score over their own windows of the full series, the recursive readings over the kept prices, and anomalous exactly if one of the two tests says so. |
| `PriceHistory.WindowedReadingsExact` | services/stream/service.py:133-150 | For a series of any length the processor's windowed readings are those of the full series. |
| `PriceHistory.RecursiveReadingsClose` | services/stream/service.py:133-150 | Its moving average and Wilder averages are within the geometric bounds of those of the full series. |
| `PriceHistory.DefaultEmaError` | services/stream/service.py:52-83 | With the default configuration 49 prices are kept and the moving average is off by less than a ten-millionth of the price range. |
| `PriceHistory.DefaultRsiInexact` | services/stream/service.py:70-71 | With the default configuration there is a series of positive prices, each accepted by the processor after the ones before it, for which the index is 100 over all prices and 50 over the kept ones. |
| `PriceHistory.JudgedAccepts` | services/stream/service.py:133-150 | An event is accepted exactly when the windows and thresholds are sound and every price volatility would divide by is positive, its own price not among them. |
| `PriceHistory.StuckWhen` | services/stream/indicators.py:75-76 | A symbol accepts no event of any price exactly when the configuration is unsound, or a volatility window has filled up and one of all its prices was zero or less. |
| `PriceHistory.WedgedAfter` | services/stream/indicators.py:75-76 | After one price of zero or less, whatever is accepted still fits below one volatility window. |
| `PriceHistory.GoesOnForEver` | services/stream/indicators.py:75-76 | A symbol can accept any number of further events exactly when none of its prices so far was zero or less. |
| `StreamWorker.StreamProcessor.Commit` | services/stream/service.py:230-231 | The prices kept for each symbol are the newest of its committed events, and other symbols are untouched. |
| `StreamWorker.StreamService.TryProcess` | services/stream/service.py:327-346 | For every fault, and whether or not a failed write took effect: bus, cache, counters and prices are left as the specification says, at most one signal goes out, under the event's own key, and the price is added only if nothing failed. |
| `StreamWorker.StreamService.HandleMessage` | services/stream/service.py:306-356 | A message without a valid event is dead-lettered, a marked one completed as a duplicate, any other processed and completed or dead-lettered with every price history as before; the whole new state follows from the old one and the fault. |
| `StreamWorker.StreamService.PollOnce` | services/stream/service.py:261-270 | A poll receives what the queue offers and handles it message by message, as a run of the specification; afterwards none of it is in flight, and each was seen once. |
| `StreamRuns.ProcessedWhen` | services/stream/service.py:306-346 | A message is processed exactly when it holds a valid event without a live marker, nothing fails, and the configuration and the symbol's prices let its indicators be computed. |
| `StreamRuns.KeyTells` | libs/common/schema.py:144-152 | For symbols and sources free of colons, two market events have the same key if and only if symbol, timestamp and source are equal. |
| `StreamRuns.SuppressedOnlyIfSeen` | services/stream/service.py:313-325 | Over every run of a fresh worker on a cache without markers, a message is suppressed as a duplicate only if an earlier message of the run had the same symbol, timestamp and source. |
| `StreamRuns.ProcessedLeaves` | services/stream/service.py:327-346 | What a processed event leaves: its rendered signal as the newest message of every subscription that had not seen its key, as its symbol's snapshot and as the newest row of its symbol's history, and its price; other symbols' snapshots, histories and prices as before. |
| `StreamRuns.ProcessedStays` | services/stream/service.py:357-371 | Snapshot and history do not expire. |
| `StreamRuns.RunIsSpaced` | services/stream/service.py:315-346 | In every run of polls with an advancing clock, redeliveries, faults and others using bus and cache, two commitments of one event are further apart than a marker lives. |
| `StreamRuns.Redelivered` | services/stream/service.py:315-346 | An event delivered again after it was committed is suppressed exactly while its marker lives, and committed a second time exactly when the marker's time is over and neither a fault nor its symbol's prices stand in the way. |
| `StreamRuns.OneSignalEach` | services/stream/service.py:337-342 | Over every run a subscription gets each event's signal at most once, and one that is there from the start gets that of every committed event exactly once, even if the event is committed twice. |
| `StreamRuns.RunCounts` | services/stream/service.py:272-356 | Over every run, messages seen are those processed, suppressed and dead-lettered, and as many prices were added as events processed. |
| `StreamRuns.SymbolWedged` | services/stream/service.py:230-231 | Once a price of zero or less was committed for a symbol, no run adds more prices to it than fit below one volatility window. |
| `StreamRuns.RunGuarantees` | services/stream/service.py:261-356 | After every run of a fresh worker: commitments of one event are far apart, every committed event's signal is out, every price was accepted after the ones before it, and the counters add up. |
| `StreamRuns.PollFollows` | services/stream/service.py:272-286 | Polls one after another, at times that do not run backwards, make up such a run. |
| `Exchange.RunConnection` | services/ingestion/exchanges/base.py:245-308 | A connection publishes its events until it has enough, skips heartbeats, ignored and malformed frames, and ends early only when the frames run out. |
| `Exchange.ExchangeWebSocketClient.Run` | services/ingestion/exchanges/base.py:146-193 | The loop ends, having gone through exactly the passes of the specification: breaker, connection, accounting and backoff. |
| `Exchange.PassMeasure` | services/ingestion/exchanges/base.py:150-191 | Every pass that goes on has published more or used one more reconnect. |
| `Exchange.PassIs` | services/ingestion/exchanges/base.py:150-193 | One pass in plain terms: the connection fills the need and the loop returns; or it closes after some events, they are counted, the base backoff is waited and the budget is whole again; or it fails, nothing is counted, and the wait is the base times two to the number of failures before, until the budget is spent. The breaker records a success, a success and a failure. |
| `Exchange.BoundedConnections` | services/ingestion/exchanges/base.py:146-193 | Whatever the other side does, at most M * (R + 1) connections are opened. |
| `Exchange.ReturnsExactly` | services/ingestion/exchanges/base.py:158-166 | On return exactly the events asked for are counted; the bus got those and the events delivered over connections that failed before they had given enough. |
| `Exchange.LostNothing` | services/ingestion/exchanges/base.py:164-178 | None were lost that way if and only if no failed connection had delivered any. |
| `Exchange.ClosesCountEverything` | services/ingestion/exchanges/base.py:174-178 | If only closes interrupt it, the bus got exactly what was counted. |
| `Exchange.CountersAgree` | services/ingestion/exchanges/base.py:164-191 | Every connection but the one that ended the loop led to a counted reconnect, and no more failures are counted than connections were opened. |
| `Exchange.GivesUpLate` | services/ingestion/exchanges/base.py:174-191 | A feed's own error surfaces only after R + 1 unproductive connections in a row. |
| `Exchange.DeadFeed` | services/ingestion/exchanges/base.py:146-193 | With a breaker threshold F no larger than R, a dead feed gets exactly F attempts, a total wait of base * (2^F - 1) and then an open circuit, if and only if the last wait is shorter than the reset timeout. |
| `Exchange.DeadFeedSmallBudget` | services/ingestion/exchanges/base.py:180-191 | With a smaller budget it gets R + 1 attempts and its own error. |

## Left out

- Real clients (Service Bus, Redis, Druid, Elasticsearch, OpenAI, `websockets.connect`), routes, middleware,
  metrics rendering, logging and configuration: input and output through libraries.
- Floating-point rounding, time zones and ISO parsing of timestamps, and the Unicode tables: one white-space
  predicate is used throughout, and upper-casing of symbols is a parameter.
- The regular-expression engine: the two splits and the word search are written as the loops they amount to.
- Chunk metadata, titles, urls and the text form of chunk ids.
- Failures of calls outside the retried operation (a failing `complete` or a failing first `get`), task
  cancellation, and lock expiry during processing: the source gives no guarantee for them.
- `max_messages=None` of the exchange client, which need not end, and what opening a socket involves.
- A bus that cannot number its messages: the read model then re-reads a fixed window and remembers nothing.
- Overlapping refreshes of one topic: the cursor is read before the first await, and the source does not guard it.
- `set_snapshot`, `list_snapshot_symbols` and `seen` of the cache, and the SQL answers of the in-memory store:
  single look-ups that would only add easy members.
- Time-series rows ingested by the stream worker: ingestion is only a point where processing may fail.
- AI analysis, news polling, guardrails, reranking and RSS parsing: they repeat the marker shape or filter subsets.
- AlertingWorker.AlertingService.HandleMessage: says which messages are dead-lettered and settled, not the text of the reason.
- Windows.DetectEwmaAnomaly: compares squares instead of taking a square root, which decides the same over the reals.
- Indicators.RelativeStrengthIndex: the error of the index itself over a bounded history is not bounded, because it
  is not (a tail without movement reads 50); the bounds are on its two averages.
- HistoryMerge.PushdownIsExact: goes one way for a given cache; the exact condition is stated for all caches and limits.
- ZeroOverlap.EverythingRepeated: goes one way for a given document; the exact condition is stated between two chunks.
