# Loki log exporter: verified model of the export loop

This project models the core of `go-loki-exporter` in Dafny. The exporter
pulls log lines from a Loki server and appends them to a local file. Its
position is kept in a checkpoint file. One run of `FetchAndProcessLogs` does
four things:

1. It loads the checkpoint. A failed load is retried. After three failures
   in a row the file is removed and loading starts over. A missing file means
   "start 35 minutes ago".
2. It cuts the span `[checkpoint - 10s, now)` into chunks of `chunkTime`. The
   last chunk is clipped to `now`.
3. It pages through each chunk with a cursor. Each page is one
   `fetchLogsFromLoki` query. After a full page whose last timestamp lies
   before the chunk end, the next query starts one nanosecond after that
   timestamp. Every page is appended to the output file.
4. Once a chunk is exhausted, its end is saved as the new checkpoint. The
   first fetch or save error ends the run.

`fetchLogsFromLoki` builds the query parameters and classifies the reply. It
returns the messages of the decoded streams in timestamp order (`sortingLogs`),
together with the timestamp of the last value of the last non-empty stream.

Modules:

- `GoTime` (go_time.dfy): instants and durations as integer nanoseconds. It
  defines Go's zero time, the int64 range and the instants RFC 3339 can encode.
- `Decimal` (decimal.dfy): `strconv.ParseInt(s, 10, 64)` and decimal
  formatting, with the round trip between them.
- `Outcomes` and `Response`: `Option` and `Result`, and the decoded shape of a
  Loki answer.
- `Sorting` (sorting.dfy): `sortingLogs`. A nested loop collects the entries,
  an in-place insertion sort orders them by timestamp, and a loop extracts the
  messages.
- `Query` (query.dfy): `fetchLogsFromLoki`. The HTTP round trip is a function
  `client: Request -> Exchange` passed in as a parameter.
- `Disk` (disk.dfy): a `FileSystem` class with the checkpoint file, its
  writability, the output file, and a ghost log of every change in order. It
  also holds `WriteLogs`.
- `Checkpoints` (checkpoint.dfy): `loadCheckpoint`, `saveCheckpoint`, and
  the `os.Remove` of the checkpoint file.
- `Chunking` (chunking.dfy): the chunk plan of the outer loop.
- `Pagination` (pagination.dfy): the pages of one chunk, how each cursor
  follows from the pages before it, and why the cursor advances.
- `Export` (export.dfy): the loops of `FetchAndProcessLogs`, and what a whole
  run writes.

A run is described by ghost values:

- A `Page` records the cursor it was queried at, its lines and its last
  timestamp.
- A `ChunkRun` records the chunk, its pages, and whether the chunk's end was
  saved.
- The change log records every append and every checkpoint write, in order.

The main theorems:

- `Export.FetchAndProcessLogs` follows the plan of chunks computed from the
  checkpoint file it finds.
  - Every run but the last is saved.
  - A saved chunk's pagination ran until a page said "stop".
  - The change log is the recovery step, then per chunk its page appends
    followed by the checkpoint write of its end.
  - It returns no error exactly when every planned chunk was saved.
  - Any error it returns says how the last chunk stopped.
- `Export.SavedCheckpointsIncrease`: the written checkpoints strictly
  increase and lie in the planned span.
- `Pagination.ChainAdvances` and `Pagination.PaginationBounded`: against a
  server that keeps to the requested window, the cursor strictly increases
  and a chunk takes at most `end - start + 1` queries.

Four consequences of the code. The first is read from the code; the model,
whose append never fails, does not show it. The others follow from the model:

- `WriteLogs` reports no error to its caller (write-logs.go:10-28), and the
  loop saves the chunk's end after the appends regardless
  (helpers.go:125-140). So a chunk whose lines failed to be written still
  has its end saved, and those lines are not fetched again.
- With `chunkTime <= 0` the outer loop never advances (helpers.go:96-142), so
  `Export.FetchAndProcessLogs` requires `chunkTime > 0`.
- The page-cap test counts the lines returned (helpers.go:127). A value whose
  timestamp does not parse yields no line, so a page that reached the limit
  can look short and end the chunk's pagination early: `Pagination.Continues`
  is applied to the number of lines.
- The span starts 10 s before the checkpoint (helpers.go:91-97). With
  `chunkTime` under 10 s the first chunk ends before the checkpoint it was
  planned from (`Export.FirstChunkEndsBeforeCheckpoint`), so a run that stops
  after its first chunk's save leaves the checkpoint earlier than it found it.

## Model

| member | source | states |
|---|---|---|
| GoTime.Unix | pkg/helpers/sorting-logs.go:23 | `time.Unix(0, ns)` of an int64 is never the zero time |
| Decimal.DigitRun | pkg/helpers/sorting-logs.go:19 | the length of the leading run of digits: everything before it is a digit, and the character after it is not |
| Decimal.ScanUint | pkg/helpers/sorting-logs.go:19 | the digit loop of `strconv.ParseUint`, left to right: a non-digit is a syntax error, and a digit that takes the value past the uint64 range is a range error at once |
| Decimal.ScanFrom | pkg/helpers/sorting-logs.go:19 | the digit loop, resumed after any run of leading digits within the uint64 range, ends as the reference outcome over the leading digit run says |
| Decimal.ScanMatchesOutcome | pkg/helpers/sorting-logs.go:19 | the digit loop equals the reference outcome: range error iff the leading digit run exceeds uint64, else syntax error iff a non-digit follows, else the value |
| Decimal.ParseInt | pkg/helpers/sorting-logs.go:19 | the value is always an int64. On error it is 0 or the int64 bound of the sign. A text with no digits after the optional sign gives 0 with an error |
| Decimal.ParseIntAccepts | pkg/helpers/helpers.go:217 | parsing succeeds iff the text is an optional sign followed by one or more digits whose signed value fits in int64, and then it yields that value |
| Decimal.ParseIntOverflowingRun | pkg/helpers/helpers.go:217 | leading digits beyond the uint64 range give the int64 bound of the sign with an error, whatever follows them |
| Decimal.ParseIntSyntaxError | pkg/helpers/helpers.go:217 | a non-digit after leading digits within the uint64 range gives 0 with an error |
| Decimal.ParseIntRange | pkg/helpers/helpers.go:217 | digits only, whose signed value lies outside int64, give the int64 bound of the sign with an error |
| Decimal.FormatInt | pkg/helpers/helpers.go:168-170 | `%v` / `Itoa` of an integer: a `-` exactly for a negative number, followed by a non-empty run of digits |
| Decimal.FormatNat | pkg/helpers/helpers.go:168-170 | the decimal spelling of a natural number is non-empty and all digits |
| Decimal.FormatNatValue | pkg/helpers/helpers.go:168-170 | the digits of the spelling denote the number again |
| Decimal.ParseFormatRoundTrip | pkg/helpers/helpers.go:168-170 | every int64 written by `%v`/`Itoa` parses back to itself without error |
| Sorting.FlattenMembership | pkg/helpers/sorting-logs.go:16-17 | a value is visited iff some stream holds it |
| Sorting.FlattenEmpty | pkg/helpers/sorting-logs.go:15-17 | nothing is visited iff every stream is empty |
| Sorting.EntriesOfAppend | pkg/helpers/sorting-logs.go:16-28 | collecting over two runs of values collects the two results one after the other |
| Sorting.EntriesOfMembership | pkg/helpers/sorting-logs.go:18-27 | an entry is collected iff some value whose timestamp parses yields it, so unparseable values are dropped |
| Sorting.EntriesOf | pkg/helpers/sorting-logs.go:18-28 | the entries of the values whose timestamp parses, in the values' order; unparseable values are skipped |
| Sorting.EntriesOfCount | pkg/helpers/sorting-logs.go:16-28 | there are exactly as many entries as values whose timestamp parses |
| Sorting.ParsingIndicesStep | pkg/helpers/sorting-logs.go:16-22 | the parsing positions of a sequence are those of its prefix, plus the last position when that value parses |
| Sorting.EntriesOfLength | pkg/helpers/sorting-logs.go:19-22 | at most one entry per value, and exactly one per value iff every timestamp parses |
| Sorting.MessagesAppend | pkg/helpers/sorting-logs.go:36-39 | extracting messages distributes over concatenation |
| Sorting.MessagesWithout | pkg/helpers/sorting-logs.go:36-39 | removing one entry removes its message from the multiset of messages |
| Sorting.MessagesRespectPermutation | pkg/helpers/sorting-logs.go:30-39 | reordering entries reorders their messages: same multiset |
| Sorting.SortedMessagesArePermutation | pkg/helpers/sorting-logs.go:30-39 | sorted messages have the entries' count and form a permutation of their messages |
| Sorting.Swap | pkg/helpers/sorting-logs.go:31-33 | exchanges two cells, keeps every other cell and the multiset |
| Sorting.Insert | pkg/helpers/sorting-logs.go:31-33 | moves `a[i]` into the ordered prefix, so the prefix one longer is ordered. It is a permutation, and the cells after `i` are unchanged |
| Sorting.SortByTime | pkg/helpers/sorting-logs.go:31-33 | the array ends ordered by non-decreasing timestamp and is a permutation of its old contents |
| Sorting.CollectEntries | pkg/helpers/sorting-logs.go:15-29 | the nested loop yields exactly the entries of the parsing values, stream by stream, in order |
| Sorting.ExtractMessages | pkg/helpers/sorting-logs.go:36-39 | the output holds the message of every entry, in the entries' order |
| Sorting.SortingLogs | pkg/helpers/sorting-logs.go:14-41 | exactly one message per value whose timestamp parses. It is an ordering by non-decreasing time and a multiset permutation of the collected messages. No order is promised among equal timestamps |
| Query.EffectiveStart | pkg/helpers/helpers.go:163-166 | the query starts at the cursor, or at the chunk start when the cursor is the zero time |
| Query.QueryParams | pkg/helpers/helpers.go:161-171 | the five parameters of one page query, with the numbers written as `%v` / `Itoa` write them |
| Query.QueryParamsCarryWindow | pkg/helpers/helpers.go:161-171 | exactly the keys query, start, end, limit and direction. The query text, the effective start, end and limit parse back from them, and direction is forward |
| Query.BuildQueryParams | pkg/helpers/helpers.go:161-171 | the step-by-step `Set` calls build the parameter map above. The start is the cursor unless the cursor is the zero time |
| Query.LastTimestamp | pkg/helpers/helpers.go:213-221 | the last timestamp is the zero time or an int64 |
| Query.LastTimestampZero | pkg/helpers/helpers.go:213-221 | the last timestamp is the zero time iff every stream is empty |
| Query.LastTimestampOfLastNonEmpty | pkg/helpers/helpers.go:214-220 | the last timestamp is the final value of the last non-empty stream |
| Query.LastTimestampIsNotMaximum | pkg/helpers/helpers.go:214-220 | a later value in an earlier stream is ignored: the result is not the maximum |
| Query.ScanLastTimestamp | pkg/helpers/helpers.go:213-221 | the backward scan computes the last timestamp |
| Query.ReplyError | pkg/helpers/helpers.go:177-200 | a reply is an error exactly when the exchange failed before a status or the status is not 200 |
| Query.FetchLogsFromLoki | pkg/helpers/helpers.go:154-223 | a transport failure or a non-200 status returns the error, no lines and the zero time; the status error carries the code and the body. An undecodable body returns one line, the fixed prefix plus the body, the zero time and no error. Otherwise it returns the sorted messages and the last timestamp of the decoded streams |
| Disk.LinesAppend | pkg/helpers/write-logs.go:20-27 | the text of two batches of lines is the two texts one after the other |
| Disk.AppendedTextAppend | pkg/helpers/write-logs.go:10-29 | the output appended by two change logs is the two outputs one after the other |
| Disk.CheckpointWritesAppend | pkg/helpers/helpers.go:136-140 | the checkpoint writes of two change logs are the two lists one after the other |
| Disk.FileSystem.WriteLogs | pkg/helpers/write-logs.go:10-29 | the output file grows by every line followed by a newline. One append is logged and the checkpoint file is untouched |
| Checkpoints.ResumeFrom | pkg/helpers/helpers.go:227-231 | a run resumes at the instant in the checkpoint file, or 35 minutes before `now` when there is none |
| Checkpoints.LoadCheckpoint | pkg/helpers/helpers.go:226-245 | a missing file gives now - 35 min. A corrupt file is an error. A file holding an instant gives that instant |
| Checkpoints.SaveCheckpoint | pkg/helpers/helpers.go:248-260 | an instant outside years 0-9999 fails to marshal, and an unwritable file fails to write. It succeeds iff neither holds, and then the file holds the instant and one write is logged |
| Checkpoints.RemoveCheckpoint | pkg/helpers/helpers.go:79-82 | it succeeds iff the file exists and can be removed, and then the file is absent and the removal is logged |
| Checkpoints.SaveThenLoad | pkg/helpers/helpers.go:226-260 | a successful save followed by a load returns the saved instant |
| Chunking.ChunkEnd | pkg/helpers/helpers.go:97-102 | a chunk ends at the smaller of `current + chunkTime` and the span end |
| Chunking.Chunks | pkg/helpers/helpers.go:96-102 | the chunks the outer loop visits from `current`; `ChunksTile` states how they cover the span |
| Chunking.ChunksStep | pkg/helpers/helpers.go:96-102 | at `current` the next planned chunk is `[current, min(current + chunkTime, end))`, and the rest of the plan follows from its end |
| Chunking.ChunksTile | pkg/helpers/helpers.go:96-102 | no chunks iff the span is empty. Each chunk is non-empty and ends at `min(start + chunkTime, end)`. Each starts where the previous ended. The first starts at the span start and the last ends at `end` |
| Chunking.ChunkEndsIncrease | pkg/helpers/helpers.go:96-142 | chunk ends strictly increase |
| Chunking.ChunkCount | pkg/helpers/helpers.go:96-102 | a non-empty span of length L takes ceil(L / chunkTime) chunks |
| Pagination.Continues | pkg/helpers/helpers.go:127-129 | pagination goes on exactly when the break condition fails: the page is full, its last timestamp is set and before the chunk end |
| Pagination.NextCursor | pkg/helpers/helpers.go:109-131 | the cursor of the next query: the chunk start, then one nanosecond after the last page's last timestamp |
| Pagination.PageEventsWriteNoCheckpoint | pkg/helpers/helpers.go:125 | page appends write no checkpoint |
| Pagination.ChainAdvances | pkg/helpers/helpers.go:110-133 | against a server that keeps to the window, every page after which pagination went on ended at or after its cursor and before the chunk end |
| Pagination.CursorStep | pkg/helpers/helpers.go:127-131 | a page that said "go on" ends at or after its cursor and before the chunk end |
| Pagination.CursorAfter | pkg/helpers/helpers.go:131 | the next cursor is strictly after the previous one and not past the chunk end |
| Pagination.PaginationBounded | pkg/helpers/helpers.go:109-133 | cursors strictly increase, cursor i is at least start + i and at most the chunk end, and there are at most end - start + 1 pages |
| Pagination.ChainExtend | pkg/helpers/helpers.go:110-131 | a page fetched at the next cursor, after a page that said "go on", extends the chain |
| Pagination.PageEventsExtend | pkg/helpers/helpers.go:125 | one more page appends its lines, and nothing else |
| Pagination.PageStep | pkg/helpers/helpers.go:127-131 | a fetched page either ends the chunk, or leaves pagination under way at one nanosecond past its strictly later last timestamp |
| Pagination.FetchPage | pkg/helpers/helpers.go:110-133 | a failed query aborts the chunk with the reply's error. A page ends the chunk exactly when it is short, zero-stamped or at or past the chunk end. Otherwise pagination goes on at a cursor strictly after the current one |
| Export.RunsFollowExtend | pkg/helpers/helpers.go:96-146 | a run of the next planned chunk, after saved runs, extends the record |
| Export.AppendPage | pkg/helpers/helpers.go:125 | `WriteLogs` of one page extends the logged appends and the output by that page |
| Export.PaginateChunk | pkg/helpers/helpers.go:109-133 | leaves the checkpoint file alone and appends every page, in order. It ends with the chunk exhausted, or aborted at the cursor of the query that failed |
| Export.LoadCheckpointWithRetry | pkg/helpers/helpers.go:66-86 | fails iff the file is corrupt and cannot be removed, with the removal error and nothing changed. A corrupt file fails three loads, is removed, and loading then succeeds from now - 35 min. Otherwise the first load succeeds with what the file holds |
| Export.ExportChunk | pkg/helpers/helpers.go:109-140 | the chunk's pages are appended. The end is saved iff pagination ended with a page that said "stop", the end has an RFC 3339 encoding and the checkpoint file is writable. A fetch error carries the failing cursor and the chunk end. A save error is the marshal or write failure |
| Export.RunEventsExtend | pkg/helpers/helpers.go:109-140 | one more chunk adds its page appends, then its checkpoint write if saved |
| Export.RunTextExtend | pkg/helpers/helpers.go:125-140 | a chunk's checkpoint write adds nothing to the output file |
| Export.RunStep | pkg/helpers/helpers.go:96-146 | the changes of one more chunk extend the logged changes and the output of a run |
| Export.CheckpointWritesAreSavedEnds | pkg/helpers/helpers.go:136-140 | the checkpoints a run writes are the ends of its saved chunks, in order |
| Export.LastSavedIsLastWrite | pkg/helpers/helpers.go:136-140 | the checkpoint file ends up holding the last checkpoint written, if any |
| Export.SavedEndsFollowPlan | pkg/helpers/helpers.go:96-146 | the saved chunks are the visited ones but an unsaved last one, so the written checkpoints are the ends of the first planned chunks |
| Export.RunsFollowPrefix | pkg/helpers/helpers.go:96-146 | dropping the last run keeps the record in step with the plan, and the run before the last was saved |
| Export.SavedCheckpointsIncrease | pkg/helpers/helpers.go:136-142 | the written checkpoints strictly increase and lie in (span start, end] |
| Export.FirstChunkEndsBeforeCheckpoint | pkg/helpers/helpers.go:91-102 | with a chunk time under the 10 s buffer, the first planned chunk ends `chunkTime` after `checkpoint - 10s`, before the checkpoint |
| Export.EmptySpanExportsNothing | pkg/helpers/helpers.go:91-96 | over an empty span (`checkpoint - 10s` not before `now`): no query, no write, no checkpoint, no error |
| Export.CompletedRunReachesEnd | pkg/helpers/helpers.go:96-149 | a run without error over a non-empty span saves every chunk, the last ending at `now`, and the file then holds `now` |
| Export.ChunkLoopStep | pkg/helpers/helpers.go:96-142 | a run of the chunk at `current` is a run of the next planned chunk. After a save the loop is under way at the chunk end |
| Export.WroteRunsStep | pkg/helpers/helpers.go:109-140 | the files after one more chunk hold the changes of the runs so far and of that chunk |
| Export.UnwritableCheckpointFails | pkg/helpers/helpers.go:136-139 | with an unwritable checkpoint file, a non-empty span ends in an error on the first chunk, after its pages only, with nothing saved |
| Export.ExportChunks | pkg/helpers/helpers.go:95-146 | the runs follow the chunk plan. No error iff every planned chunk was saved. A chunk is saved only when its end has an RFC 3339 encoding and the checkpoint file is writable. An error says how the last chunk stopped. The log, the output and the checkpoint file hold exactly the changes of the runs |
| Export.FetchAndProcessLogs | pkg/helpers/helpers.go:62-150 | a corrupt file that cannot be removed returns that error before any query, with nothing changed. Otherwise the chunks planned from `[checkpoint - 10s, now)` are exported as `ExportChunks` states. The log is the recovery removal followed by the runs' changes. The checkpoint file holds the last saved chunk end, or the recovered file |

## Left out

- HTTP transport and JSON decoding are left out: the shared client, request creation, the two-minute timeout, body reading, URL encoding and `json.Unmarshal` of the reply. Each query is the abstract function `client`, which turns a `Request` into an `Exchange`: a failure at one of the three stages, or a status, a body and the decoding that body gets.
- The checkpoint's JSON and RFC 3339 encoding is left out. The model keeps only its observable cases: a missing file, an unreadable or undecodable file, or an instant. Marshalling fails outside years 0-9999 counted in UTC; Go counts the year in the instant's own time zone, which the model does not carry.
- `UnixNano` conversion is left out: instants are nanosecond counts. Go's wrap-around of `UnixNano` for years outside 1678-2262 is not modelled. The request parameters carry the exact count, and `Decimal.ParseFormatRoundTrip` holds for int64 values only.
- Value arrays of fewer than two elements are left out: each value is a (timestamp, line) pair here. A longer value behaves as its first two elements, since Go reads only `value[0]` and `value[1]` (sorting-logs.go:19,26; helpers.go:217). In Go an empty value panics at `value[0]` (sorting-logs.go:19, and helpers.go:217 for a stream's final value). A one-element value panics at `value[1]` when its timestamp parses, and is skipped by `continue` when it does not. The model cannot represent any of these values.
- `time.Now()` is left out: `now` is a parameter, and it stands both for the cold-start "35 minutes ago" and for the end of the span.
- `time.Sleep` between chunks and every `c.Log` call are left out. They change no state.
- Failures inside `WriteLogs` are left out: `log.Fatal` when the file cannot be opened, a `WriteString` error, which is printed and drops the remaining lines of the batch, and a failure that only shows at `writer.Flush()` (write-logs.go:18, 28), which is the usual case with a `bufio.Writer` and is dropped without a message. The model's append always succeeds. As in Go, nothing is reported back to the loop.
- Partial checkpoint writes are left out. `os.WriteFile` truncates the file before writing, so a write that fails after the open leaves an empty or partial file, which the next run reads as corrupt. `WriteFailed` models only a failure that leaves the old file in place.
- `main.go`, `pkg/config/config.go` and `pkg/logger/logger.go` are not part of this model. Neither is `LokiConfig.New`, which only fills a record.
- Concurrency is left out; a run is single-threaded.
- Export.FetchAndProcessLogs: requires `chunkTime > 0`, because with a non-positive chunk time the Go loop never advances.
- Export.FetchAndProcessLogs: requires `Honours`: a full page whose last timestamp is before the chunk end never lies before the start it was queried with. Without it the Go pagination loop can repeat a cursor forever. The model therefore says nothing about such servers.
- Query.FetchLogsFromLoki: the order of the returned lines is stated only up to the choice among equal timestamps. `sort.Slice` is not stable and its choice is not modelled.
- Query.LastTimestamp is the final value of the last non-empty stream, not the maximum across streams (`Query.LastTimestampIsNotMaximum`). A final timestamp that does not parse yields the value `strconv.ParseInt` returns with its error: 0 (the Unix epoch, not zero time) or an int64 bound.
- Sorting.SortingLogs: the order among equal timestamps is unspecified, because `sort.Slice` is not stable.
- Export.LoadCheckpointWithRetry: each load reads the same checkpoint file, and the model has no transient read errors. A load that fails once or twice and then succeeds (helpers.go:70-78, 233-236) cannot happen, so a corrupt file fails all three loads and any other file loads at once.
- Checkpoints.SaveCheckpoint and Checkpoints.RemoveCheckpoint: one writability flag governs both the removal and the writes, and it stays fixed for the whole run. The model cannot represent a removal that succeeds followed by a save that fails, or a save that fails after earlier saves succeeded (a disk that fills up mid-run); a write failure can only end the first chunk.
- `strconv.ParseInt` belongs to Go's standard library. `Decimal.ParseInt` follows its base-10, 64-bit behaviour: an optional sign, no underscores or base prefixes, digits scanned from the left.
