# Resuming pod logs without losing or repeating lines

The receiver follows container logs through the Kubernetes API. It can ask the
kubelet only for "everything since this second", the pipeline may refuse what it
is given, connections break anywhere, streams are cancelled and replaced while
they still flush, and the process may be killed. This project models how it
resumes after each of these and proves what is and what is not repeated or lost.

A log is a sequence of records `(ts, body)` with nanosecond timestamps; `ts = 0`
is a record the kubelet gave no timestamp, such as the continuation chunks of a
line split by size. The modules, bottom up:

| file | what it holds |
|---|---|
| `Records.dfy` | logs, counting in them, slices of them, where a since-request starts |
| `Cursors.dfy` | the cursor, its fold, its stored forms, and where in a log a cursor stands |
| `Filters.dfy` | the replay filter, and fold and filter as each other's inverse |
| `Retries.dfy` | the retry loop around the pipeline |
| `Connections.dfy` | one connection: the loop of `streamConnection`, as methods and as a step function |
| `Readings.dfy` | what every connection keeps |
| `Refusals.dfy` | which answers of the pipeline end a connection refused |
| `Backoffs.dfy` | doubling, jitter and spread in 64-bit durations |
| `Streams.dfy` | the loop of `containerStream.run`, `follow` and the final drain |
| `Runs.dfy` | exactly-once over whole runs |
| `Backfills.dfy` | where a backfill begins, and what a refusal before the first delivery loses |
| `Endings.dfy` | terminal containers, old cursors, the reconnect ladder |
| `Crashes.dfy` | kills and restarts |
| `Keys.dfy`, `Stores.dfy`, `Receivers.dfy` | stream keys, the cursor store, the receiver's bookkeeping |
| `Systems.dfy`, `Safety.dfy`, `Histories.dfy`, `Effects.dfy` | the receiver as a transition system, one critical section a step: what every state keeps, what stays undone, what gets done |
| `Tokenizers.dfy`, `Lines.dfy`, `Cuts.dfy` | the size-bounded tokenizer, its line-by-line meaning, and cut streams |
| `ByteStreams.dfy` | torn lines and the cursor, and exactly-once for byte streams |

Code that updates variables in place is a class or a loop (`Filter`,
`CursorCell`, `Reader`, `StreamConnection`, `ConsumeLogs`, `ContainerStream`,
`Store`, `LogsReceiver`, `Splitter`, `ScanAll`); each method's contract says what
it computes through a function, and the theorems are about those functions.
Cursors are values, as in the source, where they are copied wherever they go.

What the world does is a parameter, and every theorem holds for all of it: which
lines arrive and when the flush ticker fires, where a connection is cut, every
answer of the pipeline, clock readings, recycles, cancellations, which step of
which stream comes next, how many bytes each read brings.

What is assumed, and where it appears:

- Timestamps never go back: `Ordered`. Records without one may be anywhere.
- The kubelet serves a connection the log from the point asked for, cut anywhere
  between two records: `ServesConnection`, `KubeletStart`. `since_seconds` in all
  its three forms is part of the model: the theorems count from where a read
  without a cursor began, and name that read.
- Retention still covers the cursor's second. `FilterExactWhen` says exactly which
  replays come out right when it does not.
- The pipeline reports back only records it was sent: `Honest`, used only for
  conservation.
- A cut falls between two records. `CutKeepsRecordsWhen` says exactly which byte
  cuts do, and `BytesServeRun` that streams cut so are served as assumed above.

Where the code does not do what it, or its documentation, says ("the manual" is the
receiver repository's own top-level README):

- A read that ends in an error is flushed like one that ends, so a connection cut
  in the middle of a line hands on the part it has (`UncleanCut`,
  `CutKeepsRecordsWhen`). If the part reaches past the line's timestamp the cursor
  counts the line as delivered and its full text is dropped as a replay ever after;
  if it does not, the cursor stays and the line comes back in full, beside a stray
  fragment (`TornLineComesBackWhen`).
- In truncate mode a reader that reports the end together with the last bytes can
  cost whole lines, because a call that only skips is not repeated once the input
  has ended (`ScanAll`, `AtEndExactWhen`, `EndWithDataLosesLine`).
- The final drain of a terminal container gets one try. Refused, or cut short, the
  rest is lost, since nothing reopens the container (`DrainCompletesWhen`). It
  also ignores `since_seconds`: with nothing delivered before, it reads the whole
  log.
- Lines 306-307 of the manual and internal/cursor/cursor.go:65-69 say a cursor without a
  count repeats its second. It repeats only the records at its own timestamp
  (`LegacyRepeatsOwnTimestamp`).
- Lines 474-486 of the manual say refused records come back after the reconnect,
  and lines 300-301 that what remains always errs toward duplicates, never gaps.
  Neither holds before the first delivery. Without a cursor every reconnect asks
  for the `since_seconds` window as it is by then, and what an earlier connection
  was served and the pipeline refused is gone once the window is past it
  (`FreshOnlyLosesRefused`; with the defaults, `DefaultsLoseRefused`). `RereadWhen`
  and `RunRereadWhen` say exactly when it comes back, and `ExactlyOnce` from where
  delivery counts.
- Lines 498-499 of the manual say disabling `retry_on_failure` drops what is refused. The
  setting changes only how often a batch is tried: with a cursor a refusal is
  re-read in either case, and without one `RereadWhen` decides in either case.
- internal/cursor/store.go:128-134 says expiry covers cursors restored from
  storage whose pods never come back. It never reaches them
  (`RestoredCursorNeverExpires`).
- receiver.go:540-542 says the receiver's per-container state cannot drift from the
  store. The restart count of a deleted container is never dropped
  (`ReportedDeleteForgets`).
- Doubling a wait of 2^62 ns or more overflows (`NextBackoffExactWhen`).

## Model

| member | source | states |
|---|---|---|
| `Records.FirstFrom` | stream.go:213-217 | a since-request starts at the first stamped record not before the time: all stamped records before it are older |
| `Records.FirstFromIsBoundary` | stream.go:199-225 | such a start never falls between two records of one timestamp |
| `Cursors.AfterIsStrictTotalOrder` | internal/cursor/cursor.go:40-45 | `After` is irreflexive, transitive and total |
| `Cursors.CursorCell.Record` | internal/cursor/cursor.go:51-63 | folds one timestamp in; reports true exactly when the cursor is afterwards further along |
| `Cursors.CursorCell.UnmarshalJSON` | internal/cursor/cursor.go:70-83 | restores both stored forms, the bare timestamp with a count of 0 |
| `Cursors.StoredFormsRoundTrip` | internal/cursor/cursor.go:26-31 | what is stored is read back; a bare timestamp comes back behind every count at it |
| `Cursors.StandsUnique` | internal/cursor/cursor.go:20-25 | a cursor determines one position in a log |
| `Cursors.PositionFormula` | internal/cursor/cursor.go:16-31 | that position is the number of older records plus the count |
| `Cursors.RecordAdvances` | internal/cursor/cursor.go:51-63 | recording the next stamped record moves the cursor to stand right behind it |
| `Cursors.CursorAtStands` | internal/cursor/cursor.go:51-63 | the fold over the first n records stands after the last stamped one of them |
| `Filters.Filter.Keep` | internal/cursor/filter.go:41-63 | one decision and the filter's next state |
| `Filters.FilterStep` | internal/cursor/filter.go:41-63 | at every record of a replay the filter forwards it exactly if it is past the cursor or unstamped |
| `Filters.FilterKeepsRest` | internal/cursor/filter.go:36-63 | a replay comes out as the unstamped records before the cursor, then everything past it |
| `Filters.FilterUndoesFold` | internal/cursor/filter.go:36-63 | for every k, the cursor of the first k records used as a filter on any replay from up to its second keeps exactly the rest |
| `Filters.FilterExactWhen` | internal/cursor/filter.go:36-63 | for every replay start, the result is right if and only if no record at the cursor's timestamp is missing or all of them had been delivered |
| `Retries.ConsumeLogs` | internal/consumerretry/logs.go:36-117 | through the attempts alone: the first sends the batch, each later one what the answer before it named as not taken or else the same again; the loop stops at a final answer, an expired backoff or a cancelled wait and nowhere else; the last attempt's own answer decides the error; what was taken is the sum over the attempts, and what is held what the last left over |
| `Retries.ConservedAtEveryAttempt` | internal/consumerretry/logs.go:62-84 | at every attempt, taken plus still held is the batch |
| `Retries.SendConserves` | internal/consumerretry/logs.go:68-116 | nil means each record was taken once; a permanent error drops exactly the held remainder; taken plus held is the batch in every case |
| `Retries.RefusedWhen` | internal/consumerretry/logs.go:36-117 | a batch comes back with a transient error exactly when no attempt was final before the loop was stopped, whatever the batch holds |
| `Retries.AttemptMade` | internal/consumerretry/logs.go:59-116 | one attempt keeps all that, and the recursive form of the loop with it |
| `Connections.ConsumeBatch` | receiver.go:740-772 | maps the answer to delivered, refused or dropped |
| `Connections.Reader.FlushBatch` | receiver.go:658-679 | one flush, against the step function |
| `Connections.Reader.AppendLine` | receiver.go:685-690 | one line appended, against the step function |
| `Connections.StreamConnection` | receiver.go:605-722 | the whole loop computes the fold of the step function over all events, early return on refusal included |
| `Readings.FlushConserves` | receiver.go:658-679 | a batch counts as handed on exactly when it was taken whole or its remainder permanently rejected; a refusal moves no cursor |
| `Readings.ConnectionKeepsOrder` | receiver.go:681-722 | batches concatenate to a prefix of the kept lines, all of them unless refused; each has 1 to maxBatch records |
| `Readings.ConnectionProgresses` | receiver.go:666-675 | reports strictly increase from the resume cursor on, and the returned cursor is the last report |
| `Readings.ConnectionOnTrack` | receiver.go:644-722 | against the log: what is handed on is a stretch plus repeated unstamped records, and the cursor stands behind the last stamped record of it |
| `Readings.HandedOverCovers` | receiver.go:658-690 | its stamped records are exactly those the cursor moved over; none the cursor moved over is missing |
| `Refusals.ConnectionRefusedWhen` | receiver.go:641-722 | a connection ends refused if and only if one of the flushes that had records to send was not dealt with; both are said through the arrivals, ticks and answers alone |
| `Refusals.EndingWhen` | receiver.go:694-704 | a connection ends refused iff a batch was not dealt with, broken iff the read failed and none was refused, clean iff neither |
| `Readings.ConnectionLeaksNothing` | receiver.go:740-772 | nothing of a refused batch reaches the pipeline if it takes batches whole |
| `Backoffs.NextBackoffExactWhen` | internal/retry/retry.go:23-29 | the next wait is min(2 * current, max) if and only if current is below 2^62 ns |
| `Backoffs.LadderExactWhen` | internal/retry/retry.go:23-29 | all rungs are min(initial * 2^n, max) if and only if initial is 0 or both bounds are below 2^62 ns |
| `Backoffs.JitterInUpperHalf` | internal/retry/retry.go:31-37 | a jittered wait of d >= 2 lies in [d/2, d) |
| `Backoffs.JitterReachesAll` | internal/retry/retry.go:31-37 | every whole wait from d / 2 up to twice that is reached, by one draw each |
| `Backoffs.SpreadWithinFraction` | internal/retry/retry.go:39-51 | a spread lifetime lies in ((1 - frac) * d, d], fractions above 1 counting as 1; any other duration or fraction leaves it |
| `Backoffs.SpreadReachesAll` | internal/retry/retry.go:39-51 | and so is every whole duration in the span of a spread lifetime |
| `Streams.ContainerStream.Follow` | stream.go:256-293 | one connection followed, and the drain of a terminal container whose stream broke |
| `Streams.ContainerStream.DrainTerminalLogs` | stream.go:299-322 | the one final read |
| `Streams.ContainerStream.RetryAfterConnectError` | stream.go:230-249 | give up, be cancelled, or climb |
| `Streams.ContainerStream.Run` | stream.go:84-149 | the loop computes the fold of one turn over the whole script, every early return included |
| `Streams.StartPointsAre` | stream.go:199-225 | where reads start: the cursor's second; without a cursor since_seconds ago, this second if that is 0, and for the final drain the beginning; no start point names both fields or 0 seconds |
| `Runs.KubeletStartsRight` | stream.go:210-225 | every start point is a timestamp boundary, and the start of the cursor's second once there is a cursor |
| `Runs.ReconnectRepeatsOnlyUnstamped` | internal/cursor/filter.go:41-63 | a reconnect hands on unstamped records from the start of the cursor's second, then the log from the cursor on, and nothing else |
| `Runs.RunResumes` | stream.go:84-149 | over any run from any cursor, a zero one included, of a log with unstamped records mixed in: each stamped record up to the new cursor exactly once and in order, each unstamped one at least once, counting from where the cursor stood or the backfill began; every cursor reported stands in between |
| `Runs.ExactlyOnce` | stream.go:84-149 | for a stamped log, what any run hands on is exactly the log from the start of the last read opened without a cursor up to the cursor, which is the whole log up to it when all history is asked for; nothing leaks from a pipeline that takes batches whole |
| `Backfills.BackfillIsFirstDelivery` | stream.go:199-225 | once anything has been delivered, the backfill began where the kubelet began to serve the read that delivered first |
| `Backfills.RereadWhen` | stream.go:210-225 | what a read without a cursor was served is handed on or still ahead after the next read if and only if it was nothing, some of it was delivered, or the next read starts no later |
| `Backfills.RunRereadWhen` | stream.go:84-149 | the same for any turn of any run: if and only if it was served nothing or the last read opened without a cursor starts no later |
| `Backfills.FreshOnlyLosesRefused` | stream.go:216-219 | with since_seconds 0, a run that never hands on a record it was served and had refused |
| `Backfills.DefaultsLoseRefused` | config.go:153-159 | such a run with the default 300 seconds and batches of up to 1000 |
| `Endings.TurnReadsWhen` | stream.go:256-322 | what one turn hands on, reports and leaks, read by read; the final drain is read iff the container is terminal, the follow's read failed or was refused, and the drain can be opened |
| `Endings.TurnEndsWhen` | stream.go:84-149 | a turn ends the stream iff its container was terminal, the connects have failed beyond the limit, or the wait was cut short; a recycle never does |
| `Endings.RunGoesOnWhen` | stream.go:84-149 | a whole run is at its loop head iff none of its attempts ended it |
| `Endings.RunEndsWhen` | stream.go:84-149 | and has otherwise ended as the first that did says, with nothing after it |
| `Endings.HeldCursorIsReported` | stream.go:264-271 | the cursor a stream resumes from is its last report, or the one it started with |
| `Endings.TerminalComplete` | stream.go:256-322 | a run from any cursor stopped by a terminal container whose last read got to the end has handed on the whole log from where that cursor stood or the backfill began |
| `Endings.ConsumedCompletesWhen` | stream.go:318-321 | a read completes a stamped log if and only if every batch it sent was dealt with and it reached the end or nothing was missing |
| `Endings.DrainCompletesWhen` | stream.go:285-322 | the same for the final drain, one that cannot be opened included |
| `Crashes.KilledAnywhere` | receiver.go:664-675 | a process killed at any event of any follow or final drain, in its first life or later, has handed on the log up to its last report, counting from its start or backfill, and every report stands in between |
| `Crashes.CrashRepeatsExactly` | internal/cursor/store.go:169-217 | after such a kill and a restart from any cursor the process had reported or resumed from, nothing is skipped and the repeated records are exactly those between that cursor and the last report |
| `Endings.LegacyRepeatsOwnTimestamp` | internal/cursor/cursor.go:65-83 | a cursor without a count repeats only records at its own timestamp, and is exact once it has moved |
| `Endings.ReconnectLadder` | stream.go:84-149 | at every loop head the wait is min(initial * 2^n, max) after n misses since the last delivery; recycles do not count |
| `Endings.GivesUpWhen` | stream.go:230-242 | a stream gives up if and only if connects have failed for longer than the limit since a stream was last open |
| `Keys.KeySplits` | receiver.go:305-321 | a key splits into the four segments it was built from |
| `Keys.KeysIdentify` | receiver.go:305-321 | keys of slash-free segments are injective and give back the pod UID |
| `Stores.Store.Advance` | internal/cursor/store.go:102-111 | only a non-zero cursor further along is stored |
| `Stores.Store.Prune` | internal/cursor/store.go:135-164 | removes and returns exactly the keys of pods last seen before the cutoff, each once |
| `Stores.Store.Load` | internal/cursor/store.go:169-195 | restores every stored position; a missing or unreadable value changes nothing |
| `Stores.Store.Flush` | internal/cursor/store.go:198-217 | writes the whole set, or leaves what was stored |
| `Stores.DecodedEncoded` | internal/cursor/store.go:169-217 | what a flush writes a load restores |
| `Stores.StoreIsMaxJoin` | internal/cursor/store.go:102-164 | after any history, of a store that began with any contents, a key holds the greatest of the cursor it began with and the non-zero ones reported, since it was last removed, or nothing |
| `Stores.OrderIrrelevant` | internal/cursor/store.go:102-111 | the order of reports makes no difference |
| `Stores.PruneSparesSeenPods` | internal/cursor/store.go:135-164 | pruning a pod removes its keys and no other pod's |
| `Receivers.TerminalMeansNeverRestarted` | receiver.go:431-450 | terminal is exactly exited and never started again by the kubelet |
| `Receivers.TerminalKeysAre` | receiver.go:412-461 | marked terminal are exactly the containers some status says have exited for good; only an init container has a restart policy of its own, from the first of its name |
| `Receivers.RestartsAre` | receiver.go:412-429 | a restart count is that of the last status with the key, init containers' after regular ones' |
| `Receivers.HasLogsWhen` | receiver.go:334-351 | there are logs of a container iff the first status of its name, regular ones first, is not waiting for a first start; a restarting one counts |
| `Receivers.StartedKeysAre` | receiver.go:323-357 | a sync opens, and a delete closes, exactly the pod's containers, init containers included; a sync only those with logs |
| `Receivers.OwnerAdvances` | receiver.go:479-491 | a report by the owner is stored unless zero or behind what is held; any other report, and any other key, changes nothing |
| `Receivers.ReleaseDrainsWhen` | receiver.go:271-293 | a release takes away only an owner's entry, and marks the key drained iff the owner released it and it is terminal |
| `Receivers.MarksAre` | receiver.go:412-429 | terminal marks are only added, and a restart count is the one marked last |
| `Receivers.ClearsMarks` | receiver.go:388-410 | a delete clears all marks and entries of its keys and cancels the streams behind them; a prune clears marks and restart counts; neither touches other keys |
| `Receivers.LogsReceiver.EnsureStreams` | receiver.go:353-380 | one stream per started container that has none and is not drained, each with the next generation |
| `Receivers.LogsReceiver.ReleaseStream` | receiver.go:271-293 | drops the entry and marks a terminal key drained, only for the owner |
| `Receivers.LogsReceiver.AdvanceCursor` | receiver.go:479-491 | only the owning generation moves the stored cursor |
| `Receivers.LogsReceiver.OnPodDeleted` | receiver.go:388-410 | cancels and removes all of the pod's entries and marks; forgets cursors only if the delete was reported |
| `Receivers.LogsReceiver.MarkContainerStates` | receiver.go:412-429 | marks exactly the terminal containers, and records restart counts |
| `Receivers.LogsReceiver.PruneStaleCursors` | receiver.go:543-556 | clears the marks of exactly the keys pruned |
| `Receivers.SyncReopens` | receiver.go:353-380 | a sync reopens every listed container without a stream that is not drained, and keeps every existing entry |
| `Systems.OwnershipStep` | receiver.go:249-293 | every step keeps: entries name running streams of their key, every stream not cancelled is the one its key names, drained keys are terminal and have no stream |
| `Systems.OneLiveStreamPerKey` | receiver.go:249-263 | no key has two streams that are not cancelled |
| `Safety.NoGapStep` | receiver.go:353-410 | every step keeps that nothing before any remembered position is missing from what was handed over, counting from the start of the read its delivery began with |
| `Safety.SystemSafe` | receiver.go:353-410 | that and ownership hold in every reachable state, under every interleaving of adds, deletes, late flushes, prunes, writes and crashes |
| `Safety.StoredCursorsHavePassed` | internal/cursor/store.go:42-50 | in every reachable state and for every since_seconds, each record before a stored cursor, or before what a restart would load, has been handed over, counting from the recorded start of a read of its key |
| `Safety.BegunByConnects` | stream.go:199-225 | every recorded start is where some connect of the run, made without a cursor, began to be served |
| `Safety.WholeHistoryHasPassed` | config.go:37-53 | with a since_seconds that reaches the first record at every connect without a cursor, or none, that start is the beginning of the log |
| `Histories.ReportedDeleteForgets` | receiver.go:467-491 | after a reported delete the cursor stays absent until a stream is started for the key or the process restarts, whatever stopped streams still do |
| `Histories.DeletedComesBackWhen` | internal/cursor/store.go:169-195 | a restart brings a deleted cursor back if and only if what is on disk still holds it; it then stays while its pod is not seen |
| `Histories.WrittenDeleteIsFinal` | internal/cursor/store.go:198-217 | once a set without it has been written, no restart brings it back |
| `Histories.LateStreamsNeverMatter` | receiver.go:249-293 | from the delete of its pod to the end of the process no step of a stopped stream changes any entry, mark, cursor, stored value or other stream |
| `Histories.InferredDeleteKeeps` | receiver.go:382-410 | after an inferred delete, until a restart, a reported delete of the key, or an expiry that finds its pod stale, every stream seeded for the key gets the cursor held then or one further along |
| `Effects.SystemReadsAreConnections` | receiver.go:605-722 | whatever interleaves, what a stream reads from a connect to a close is one connection: served from the point its cursor asks for, and leaving it the cursor that connection returns |
| `Effects.ReportIsKept` | receiver.go:479-491 | after a report by the owner neither the cursor held nor one a later stream of the key is seeded with is behind it, until a restart, a reported delete or an expiry of its pod |
| `Effects.SystemIsMaxJoin` | internal/cursor/store.go:102-195 | in every reachable state, restarts included, a key's cursor is the greatest of those its owners have reported since it was last removed or loaded, and there is none iff there are none |
| `Effects.WrittenIsRestored` | internal/cursor/store.go:169-217 | a restart resumes from the cursors of the moment the last written snapshot was taken |
| `Effects.ExpiryRemoves` | receiver.go:543-556 | an expiry removes the cursors of exactly the pods last seen before the cutoff, and then their marks and restart counts |
| `Effects.SightsAreRemembered` | internal/cursor/store.go:113-148 | when a pod was last seen is the last sight of it, forgotten by an expiry with a later cutoff and by a restart |
| `Effects.TerminalIsClosed` | receiver.go:271-293 | a container marked terminal is drained when its owner is done, and no sync opens it again until a delete or a prune of its marks |
| `Effects.SyncOpensWhen` | receiver.go:353-380 | a sync starts a stream of a new generation iff the container has none and is not drained |
| `Effects.DeletedReopens` | receiver.go:388-410 | after any delete the next sync opens the container, whatever was marked |
| `Effects.StoppedAreCancelled` | receiver.go:388-400 | a delete cancels the streams it stops |
| `Histories.DrainedStaysClosed` | receiver.go:65-72 | no sync reopens a drained container until a delete or prune clears its mark |
| `Histories.GenerationsAreFresh` | receiver.go:60-63 | generations started by one process strictly increase |
| `Histories.RestoredCursorNeverExpires` | internal/cursor/store.go:128-164 | expiry never removes the cursor of a pod not seen since the start |
| `Tokenizers.Splitter.SplitData` | internal/logline/split.go:75-104 | one call of the split function, its flag and its oversize callback |
| `Tokenizers.CallSound` | internal/logline/split.go:75-104 | whatever a call returns comes next in the stream, and without a token the window has room |
| `Tokenizers.ScanAll` | internal/logline/scanner.go:24-37 | for every chunking of the reads the tokens are the specified records if and only if the last read ends well; always when the end is reported on its own |
| `Tokenizers.AtEndExactWhen` | internal/logline/split.go:75-104 | the two cases, exactly, in which an end reported with data goes wrong |
| `Lines.LinesPartition` | internal/logline/split.go:57-65 | the lines of a stream are what its newlines divide it into |
| `Lines.SplitRecords` | internal/logline/split.go:57-104 | split mode emits each line's full pieces and its rest, and reports one oversize per full piece |
| `Lines.PiecesShape` | internal/logline/split.go:57-104 | a line of length n gives n / max pieces of max bytes and a shorter rest, which is empty if max divides n and is then left out of an unterminated line |
| `Lines.PiecesJoinWhen` | internal/logline/split.go:17-19 | the pieces of a line join back to it if and only if its rest is empty or does not end in a carriage return |
| `Lines.TruncateRecords` | internal/logline/split.go:75-104 | truncate mode emits one record a line, its head, and reports one oversize per line of at least max bytes |
| `Lines.EndWithDataLosesLine` | internal/logline/split.go:75-104 | an input, read in two reads, of which truncate mode loses a line |
| `Cuts.CutKeepsRecordsWhen` | internal/logline/scanner.go:37-44 | the records emitted before a cut are records of the uncut stream if and only if the cut is clean |
| `Cuts.UncleanCut` | internal/logline/scanner.go:37-44 | a cut that tears a record |
| `ByteStreams.FrontStamp` | internal/logline/line.go:18-28 | the front of a line carries the line's timestamp if it reaches past the first space, and none otherwise |
| `ByteStreams.TornRecordReplay` | internal/cursor/filter.go:36-63 | after part of record k was handed on, every replay gives the log from k + 1 on, or from k on if the part had no timestamp |
| `ByteStreams.TornLineComesBackWhen` | internal/cursor/filter.go:36-63 | a torn line comes back in full if and only if the tear was not past its first space |
| `ByteStreams.RecordsFromLineStart` | internal/logline/split.go:57-104 | the records of a stream are those up to any line start followed by those from there |
| `ByteStreams.ServedIsStretch` | internal/logline/scanner.go:37-44 | what is served from a line start up to a clean cut gives a prefix of the records from that line start on |
| `ByteStreams.BytesServeConnection` | internal/logline/scanner.go:24-44 | a stream served from the line the kubelet starts at and cut cleanly gives a connection a prefix of the log from `KubeletStart` on |
| `ByteStreams.ExactlyOnceInBytes` | stream.go:84-149 | over any run of such connections what is handed on is a stretch of the records the whole byte stream is cut into, from where the backfill began up to the cursor |

## Left out

- ParseLeadingTimestamp: its timestamp grammar; `ParseLine` takes any reading of the bytes before the first space, and `ExactlyOnceInBytes` any parse. A continuation chunk that happens to begin with a timestamp would enter the model as a stamped record.
- Timestamps before year 1, which Go would order before its zero time.
- Kubernetes client, informers, REST and authentication: they are the source of add, update and delete events and of served logs.
- Telemetry, logging, observability reports and the attributes of a batch: a batch is a sequence of records.
- Configuration parsing, defaults and validation.
- JSON text: a stored cursor is one of two forms, and a storage value is missing, unreadable or a set of positions.
- The delays of the retry loop's exponential backoff, which come from another library: that it stops, or that the context ends, is part of each attempt.
- The inside of `bufio.Scanner` beyond what it does with a split function: window, reads, end. Its empty-read limit cannot trigger here.
- Backoffs.SpreadWithinFraction: multiplies exactly where the source multiplies 64-bit floats, so the span may be off by the rounding of that product.
- Widths other than durations: the generation counter and the record counts are unbounded.
- A log that is not ordered by timestamp: records older than the cursor are dropped, and nothing is claimed.
- Retention that has dropped records past the cursor: they are gone for every reader.
- ContainerStream.Run: the connect count and restart count it keeps for telemetry.
- Stores.Store.Load: only the read error, not its cause.
