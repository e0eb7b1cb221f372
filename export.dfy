/**
 * `FetchAndProcessLogs`: load the checkpoint (retrying, then resetting a
 * corrupt one), cut `[checkpoint - 10s, now)` into chunks, page through each
 * chunk with a cursor, append every page to the output file, and save the
 * chunk's end as the new checkpoint once the chunk is exhausted.
 */
module Export {
  import opened GoTime
  import opened Outcomes
  import opened Sorting
  import opened Query
  import opened Disk
  import opened Checkpoints
  import opened Chunking
  import opened Pagination

  /** Subtracted from the checkpoint to absorb ingestion delay at the source. */
  const Buffer: Duration := 10 * Second

  /** Loads of a corrupt checkpoint tried before the file is removed. */
  const MaxLoadAttempts: nat := 3

  /** What happened to one chunk: its pages, and whether its end was saved. */
  datatype ChunkRun = ChunkRun(chunk: Chunk, pages: seq<Page>, saved: bool)

  datatype ExportError =
    | CheckpointNotRemoved(cause: CheckpointError)
    | FetchFailed(cursor: Time, chunkEnd: Time, reason: FetchError)
    | SaveFailed(cause: CheckpointError)

  /** The changes of a run: per chunk, its page appends, then (if saved) the checkpoint write of its end. */
  function RunEvents(runs: seq<ChunkRun>): seq<DiskEvent>
    decreases |runs|
  {
    if runs == [] then []
    else
      var run := runs[|runs| - 1];
      RunEvents(runs[..|runs| - 1]) + PageEvents(run.pages) + (if run.saved then [CheckpointWritten(run.chunk.end)] else [])
  }

  /** Run `k` visited the `k`-th planned chunk; only the last run may be unsaved; a saved chunk was exhausted. */
  ghost predicate RunFollows(cfg: LokiConfig, client: Request -> Exchange, chunks: seq<Chunk>, runs: seq<ChunkRun>, k: int)
    requires 0 <= k < |runs| <= |chunks|
  {
    && runs[k].chunk == chunks[k]
    && (k < |runs| - 1 ==> runs[k].saved)
    && (runs[k].saved ==> ChunkExhausted(cfg, client, chunks[k], runs[k].pages))
  }

  /** The runs visit a prefix of the planned chunks, in order, each as `RunFollows` says. */
  ghost predicate RunsFollow(cfg: LokiConfig, client: Request -> Exchange, chunks: seq<Chunk>, runs: seq<ChunkRun>) {
    && |runs| <= |chunks|
    && (forall k :: 0 <= k < |runs| ==> RunFollows(cfg, client, chunks, runs, k))
  }

  /** A run of the next planned chunk, after saved runs, extends the record. */
  lemma RunsFollowExtend(cfg: LokiConfig, client: Request -> Exchange, chunks: seq<Chunk>, runs: seq<ChunkRun>, run: ChunkRun)
    requires RunsFollow(cfg, client, chunks, runs)
    requires forall k :: 0 <= k < |runs| ==> runs[k].saved
    requires |runs| < |chunks| && run.chunk == chunks[|runs|]
    requires run.saved ==> ChunkExhausted(cfg, client, run.chunk, run.pages)
    ensures RunsFollow(cfg, client, chunks, runs + [run])
  {
    var ext := runs + [run];
    forall k | 0 <= k < |ext| ensures RunFollows(cfg, client, chunks, ext, k) {
      if k < |runs| {
        assert RunFollows(cfg, client, chunks, runs, k);
        assert ext[k] == runs[k];
      }
    }
  }

  /** The chunks a run plans from the checkpoint file it finds. */
  function PlannedChunks(file: CheckpointFile, now: Time, chunkTime: Duration): seq<Chunk>
    requires chunkTime > 0
  {
    Chunks(ResumeFrom(file, now) - Buffer, now, chunkTime)
  }

  /** The changes recovery makes: a corrupt checkpoint file is removed. */
  function RecoveryEvents(file: CheckpointFile): seq<DiskEvent> {
    if file.Corrupt? then [CheckpointRemoved] else []
  }

  /** The output file and the change log hold, past their state `events0`, `output0`, the appends of `pages`. */
  ghost predicate WrotePages(fs: FileSystem, events0: seq<DiskEvent>, output0: string, pages: seq<Page>)
    reads fs
  {
    fs.events == events0 + PageEvents(pages) && fs.output == output0 + AppendedText(PageEvents(pages))
  }

  /** `writeLogs` of one page, as the chunk's page appends see it. */
  method AppendPage(fs: FileSystem, ghost pages: seq<Page>, page: Page, ghost events: seq<DiskEvent>, ghost output: string)
    requires WrotePages(fs, events, output, pages)
    modifies fs
    ensures fs.checkpoint == old(fs.checkpoint) && fs.checkpointWritable == old(fs.checkpointWritable)
    ensures WrotePages(fs, events, output, pages + [page])
  {
    fs.WriteLogs(page.lines);
    PageEventsExtend(pages, page);
    Associates(events, PageEvents(pages), [Appended(Lines(page.lines))]);
    Associates(output, AppendedText(PageEvents(pages)), Lines(page.lines));
  }

  /** The inner loop of `FetchAndProcessLogs`: page through one chunk, appending every page. */
  method PaginateChunk(cfg: LokiConfig, client: Request -> Exchange, fs: FileSystem, chunk: Chunk)
    returns (err: Option<FetchError>, cursor: Time, ghost pages: seq<Page>)
    requires Honours(cfg, client)
    requires chunk.start < chunk.end
    modifies fs
    ensures fs.checkpoint == old(fs.checkpoint) && fs.checkpointWritable == old(fs.checkpointWritable)
    ensures fs.events == old(fs.events) + PageEvents(pages)
    ensures fs.output == old(fs.output) + AppendedText(PageEvents(pages))
    ensures err.None? ==> ChunkExhausted(cfg, client, chunk, pages)
    ensures err.Some? ==> ChunkAborted(cfg, client, chunk, pages, err.value) && cursor == NextCursor(chunk, pages)
  {
    cursor := chunk.start;
    pages := [];
    while true
      invariant Paging(cfg, client, chunk, pages, cursor)
      invariant fs.checkpoint == old(fs.checkpoint) && fs.checkpointWritable == old(fs.checkpointWritable)
      invariant WrotePages(fs, old(fs.events), old(fs.output), pages)
      decreases chunk.end - cursor
    {
      var e, page := FetchPage(cfg, client, chunk, pages, cursor);
      if e.Some? {
        return e, cursor, pages;
      }
      AppendPage(fs, pages, page, old(fs.events), old(fs.output));
      pages := pages + [page];
      if |page.lines| < cfg.maxQueryLogs || IsZero(page.lastTimestamp) || !(page.lastTimestamp < chunk.end) {
        return None, cursor, pages;
      }
      cursor := page.lastTimestamp + Nanosecond;
    }
  }

  /** The checkpoint file as recovery leaves it: a corrupt file is gone. */
  function Recovered(file: CheckpointFile): CheckpointFile {
    if file.Corrupt? then Absent else file
  }

  /**
   * The checkpoint-loading loop of `FetchAndProcessLogs`: up to three loads;
   * after three failures the file is removed and loading starts over.
   */
  method LoadCheckpointWithRetry(fs: FileSystem, now: Time) returns (r: Result<Checkpoint, CheckpointError>, ghost failedLoads: nat)
    modifies fs
    ensures fs.output == old(fs.output) && fs.checkpointWritable == old(fs.checkpointWritable)
    ensures r.Failure? <==> old(fs.checkpoint).Corrupt? && !fs.checkpointWritable
    ensures r.Failure? ==> r.error == RemoveFailed && fs.checkpoint == old(fs.checkpoint) && fs.events == old(fs.events)
    ensures r.Success? ==> r.value == Checkpoint(ResumeFrom(old(fs.checkpoint), now))
    ensures r.Success? ==> fs.checkpoint == Recovered(old(fs.checkpoint)) && fs.events == old(fs.events) + RecoveryEvents(old(fs.checkpoint))
    ensures failedLoads == (if old(fs.checkpoint).Corrupt? then MaxLoadAttempts else 0)
  {
    var count := 0;
    failedLoads := 0;
    while true
      invariant 0 <= count <= MaxLoadAttempts
      invariant fs.output == old(fs.output) && fs.checkpointWritable == old(fs.checkpointWritable)
      invariant || (fs.checkpoint == old(fs.checkpoint) && fs.events == old(fs.events) && failedLoads == count)
                || (old(fs.checkpoint).Corrupt? && fs.checkpointWritable && fs.checkpoint == Absent && fs.events == old(fs.events) + [CheckpointRemoved]
                    && count == 0 && failedLoads == MaxLoadAttempts)
      invariant !old(fs.checkpoint).Corrupt? ==> count == 0
      decreases (if fs.checkpoint.Corrupt? then 1 else 0), MaxLoadAttempts - count
    {
      if count < MaxLoadAttempts {
        var loaded := LoadCheckpoint(fs, now);
        if loaded.Success? {
          return loaded, failedLoads;
        }
        count := count + 1;
        failedLoads := failedLoads + 1;
      } else {
        var removed := RemoveCheckpoint(fs);
        if removed.Some? {
          return Failure(removed.value), failedLoads;
        }
        count := 0;
      }
    }
  }

  /** How a chunk whose end was not saved stopped, as the error returned says. */
  ghost predicate StoppedBy(cfg: LokiConfig, client: Request -> Exchange, checkpointWritable: bool, run: ChunkRun, e: ExportError) {
    && !run.saved
    && match e
       case FetchFailed(cursor, chunkEnd, reason) =>
         cursor == NextCursor(run.chunk, run.pages) && chunkEnd == run.chunk.end
         && ChunkAborted(cfg, client, run.chunk, run.pages, reason)
       case SaveFailed(cause) =>
         && ChunkExhausted(cfg, client, run.chunk, run.pages)
         && cause == (if !Rfc3339Representable(run.chunk.end) then MarshalFailed else WriteFailed)
         && (Rfc3339Representable(run.chunk.end) ==> !checkpointWritable)
       case CheckpointNotRemoved(_) => false
  }

  /** Saving the end of `chunk` succeeds: the end has an RFC 3339 encoding and the checkpoint file is writable. */
  predicate SavePossible(checkpointWritable: bool, chunk: Chunk) {
    Rfc3339Representable(chunk.end) && checkpointWritable
  }

  /** One iteration of the chunk loop: page through the chunk, then save its end as the checkpoint. */
  method ExportChunk(cfg: LokiConfig, client: Request -> Exchange, fs: FileSystem, chunk: Chunk)
    returns (err: Option<ExportError>, ghost run: ChunkRun)
    requires Honours(cfg, client)
    requires chunk.start < chunk.end
    modifies fs
    ensures run.chunk == chunk && (run.saved <==> err.None?)
    ensures run.saved <==> ChunkExhausted(cfg, client, chunk, run.pages) && SavePossible(fs.checkpointWritable, chunk)
    ensures err.Some? ==> StoppedBy(cfg, client, fs.checkpointWritable, run, err.value)
    ensures fs.events == old(fs.events) + PageEvents(run.pages) + (if run.saved then [CheckpointWritten(chunk.end)] else [])
    ensures fs.output == old(fs.output) + AppendedText(PageEvents(run.pages))
    ensures fs.checkpoint == (if run.saved then Holds(chunk.end) else old(fs.checkpoint))
    ensures fs.checkpointWritable == old(fs.checkpointWritable)
  {
    var e, cursor, pages := PaginateChunk(cfg, client, fs, chunk);
    if e.Some? {
      return Some(FetchFailed(cursor, chunk.end, e.value)), ChunkRun(chunk, pages, false);
    }
    var saveErr := SaveCheckpoint(fs, Checkpoint(chunk.end));
    if saveErr.Some? {
      return Some(SaveFailed(saveErr.value)), ChunkRun(chunk, pages, false);
    }
    return None, ChunkRun(chunk, pages, true);
  }

  lemma RunEventsExtend(runs: seq<ChunkRun>, run: ChunkRun)
    ensures RunEvents(runs + [run]) == RunEvents(runs) + PageEvents(run.pages) + (if run.saved then [CheckpointWritten(run.chunk.end)] else [])
  {
    assert (runs + [run])[..|runs|] == runs;
  }

  /** A chunk's checkpoint write adds nothing to the output file. */
  lemma RunTextExtend(runs: seq<ChunkRun>, run: ChunkRun)
    ensures AppendedText(RunEvents(runs + [run])) == AppendedText(RunEvents(runs)) + AppendedText(PageEvents(run.pages))
  {
    RunEventsExtend(runs, run);
    var tail: seq<DiskEvent> := if run.saved then [CheckpointWritten(run.chunk.end)] else [];
    AppendedTextAppend(RunEvents(runs), PageEvents(run.pages));
    AppendedTextAppend(RunEvents(runs) + PageEvents(run.pages), tail);
    if run.saved {
      assert AppendedText(tail) == "";
    }
  }

  /** The changes of one more chunk extend the changes of a run. */
  lemma RunStep(events0: seq<DiskEvent>, events1: seq<DiskEvent>, events2: seq<DiskEvent>,
                output0: string, output1: string, output2: string, runs: seq<ChunkRun>, run: ChunkRun)
    requires events1 == events0 + RunEvents(runs)
    requires events2 == events1 + PageEvents(run.pages) + (if run.saved then [CheckpointWritten(run.chunk.end)] else [])
    requires output1 == output0 + AppendedText(RunEvents(runs))
    requires output2 == output1 + AppendedText(PageEvents(run.pages))
    ensures events2 == events0 + RunEvents(runs + [run])
    ensures output2 == output0 + AppendedText(RunEvents(runs + [run]))
  {
    RunEventsExtend(runs, run);
    RunTextExtend(runs, run);
    var pageEvents, tail := PageEvents(run.pages), if run.saved then [CheckpointWritten(run.chunk.end)] else [];
    SeqAssociates(events0, RunEvents(runs), pageEvents, tail);
    SeqAssociates(output0, AppendedText(RunEvents(runs)), AppendedText(pageEvents), "");
  }

  /**
   * Regrouping of concatenations, kept apart from the step lemmas above so
   * that their proofs stay small.
   */
  lemma Associates<T>(a: seq<T>, b: seq<T>, c: seq<T>)
    ensures a + b + c == a + (b + c)
  {
  }

  lemma SeqAssociates<T>(a: seq<T>, b: seq<T>, c: seq<T>, d: seq<T>)
    ensures a + b + c + d == a + (b + c + d)
  {
  }

  /** Every saved run's end could be saved. */
  ghost predicate SavesPossible(checkpointWritable: bool, runs: seq<ChunkRun>) {
    forall k :: 0 <= k < |runs| && runs[k].saved ==> SavePossible(checkpointWritable, runs[k].chunk)
  }

  /**
   * The outcome of the chunk loop over the planned `chunks`: the runs follow
   * the plan; there is no error exactly when every planned chunk was
   * exported and saved; an error tells how the last chunk visited stopped.
   */
  ghost predicate ChunksExported(cfg: LokiConfig, client: Request -> Exchange, checkpointWritable: bool,
                                 chunks: seq<Chunk>, runs: seq<ChunkRun>, err: Option<ExportError>) {
    && RunsFollow(cfg, client, chunks, runs)
    && (err.None? <==> |runs| == |chunks| && forall k :: 0 <= k < |runs| ==> runs[k].saved)
    && SavesPossible(checkpointWritable, runs)
    && (err.Some? ==> runs != [] && StoppedBy(cfg, client, checkpointWritable, runs[|runs| - 1], err.value))
  }

  /** The checkpoint file after `runs`: the end of the last saved chunk, else what it was before. */
  function LastSaved(runs: seq<ChunkRun>, file: CheckpointFile): CheckpointFile
    decreases |runs|
  {
    if runs == [] then file
    else if runs[|runs| - 1].saved then Holds(runs[|runs| - 1].chunk.end)
    else LastSaved(runs[..|runs| - 1], file)
  }

  /** The ends of the saved chunks, in the order of the runs. */
  function SavedEnds(runs: seq<ChunkRun>): seq<Time>
    decreases |runs|
  {
    if runs == [] then []
    else SavedEnds(runs[..|runs| - 1]) + (if runs[|runs| - 1].saved then [runs[|runs| - 1].chunk.end] else [])
  }

  /** The checkpoints a run writes are the ends of the chunks it saved, in order. */
  lemma {:induction false} CheckpointWritesAreSavedEnds(runs: seq<ChunkRun>)
    ensures CheckpointWrites(RunEvents(runs)) == SavedEnds(runs)
    decreases |runs|
  {
    if runs != [] {
      var init := runs[..|runs| - 1];
      var run := runs[|runs| - 1];
      CheckpointWritesAreSavedEnds(init);
      var tail: seq<DiskEvent> := if run.saved then [CheckpointWritten(run.chunk.end)] else [];
      assert runs == init + [run];
      RunEventsExtend(init, run);
      CheckpointWritesAppend(RunEvents(init) + PageEvents(run.pages), tail);
      CheckpointWritesAppend(RunEvents(init), PageEvents(run.pages));
      PageEventsWriteNoCheckpoint(run.pages);
      if run.saved {
        assert tail[..0] == [];
      }
    }
  }

  /** The checkpoint file ends up holding the last checkpoint written, if any. */
  lemma {:induction false} LastSavedIsLastWrite(runs: seq<ChunkRun>, file: CheckpointFile)
    ensures var w := SavedEnds(runs);
      LastSaved(runs, file) == (if w == [] then file else Holds(w[|w| - 1]))
    decreases |runs|
  {
    if runs != [] {
      LastSavedIsLastWrite(runs[..|runs| - 1], file);
    }
  }

  /**
   * Following the plan, the saved chunks are all visited chunks but an
   * unsaved last one, so the checkpoints written are the first planned
   * chunks' ends.
   */
  lemma {:induction false} SavedEndsFollowPlan(cfg: LokiConfig, client: Request -> Exchange, chunks: seq<Chunk>, runs: seq<ChunkRun>)
    requires RunsFollow(cfg, client, chunks, runs)
    ensures var w := SavedEnds(runs);
      && |w| == (if runs != [] && !runs[|runs| - 1].saved then |runs| - 1 else |runs|)
      && (forall k :: 0 <= k < |w| ==> w[k] == chunks[k].end)
    decreases |runs|
  {
    if runs != [] {
      var init := runs[..|runs| - 1];
      var run := runs[|runs| - 1];
      RunsFollowPrefix(cfg, client, chunks, runs);
      SavedEndsFollowPlan(cfg, client, chunks, init);
      if init != [] {
        assert init[|init| - 1] == runs[|runs| - 2];
      }
      var before := SavedEnds(init);
      var w := SavedEnds(runs);
      forall k | 0 <= k < |w| ensures w[k] == chunks[k].end {
        if k < |before| {
          assert w[k] == before[k];
        }
      }
    }
  }

  /** Dropping the last run keeps the record in step with the plan; the run before the last was saved. */
  lemma RunsFollowPrefix(cfg: LokiConfig, client: Request -> Exchange, chunks: seq<Chunk>, runs: seq<ChunkRun>)
    requires RunsFollow(cfg, client, chunks, runs) && runs != []
    ensures RunsFollow(cfg, client, chunks, runs[..|runs| - 1])
    ensures runs[|runs| - 1].chunk == chunks[|runs| - 1]
    ensures |runs| >= 2 ==> runs[|runs| - 2].saved
  {
    var init := runs[..|runs| - 1];
    assert RunFollows(cfg, client, chunks, runs, |runs| - 1);
    forall k | 0 <= k < |init| ensures RunFollows(cfg, client, chunks, init, k) {
      assert RunFollows(cfg, client, chunks, runs, k);
      assert init[k] == runs[k];
    }
    if |runs| >= 2 {
      assert RunFollows(cfg, client, chunks, runs, |runs| - 2);
    }
  }

  /**
   * Over the chunks planned for `[current, endTime)`, the checkpoints written
   * strictly increase and lie in `(current, endTime]`.
   */
  lemma SavedCheckpointsIncrease(cfg: LokiConfig, client: Request -> Exchange, current: Time, endTime: Time, chunkTime: Duration, runs: seq<ChunkRun>)
    requires chunkTime > 0
    requires RunsFollow(cfg, client, Chunks(current, endTime, chunkTime), runs)
    ensures var w := CheckpointWrites(RunEvents(runs));
      && (forall i, j :: 0 <= i < j < |w| ==> w[i] < w[j])
      && (forall i :: 0 <= i < |w| ==> current < w[i] <= endTime)
  {
    var chunks := Chunks(current, endTime, chunkTime);
    CheckpointWritesAreSavedEnds(runs);
    SavedEndsFollowPlan(cfg, client, chunks, runs);
    ChunkEndsIncrease(current, endTime, chunkTime);
    ChunksTile(current, endTime, chunkTime);
    var w := SavedEnds(runs);
    forall i | 0 <= i < |w| ensures current < w[i] <= endTime {
      assert w[i] == chunks[i].end;
      if i > 0 {
        assert w[0] == chunks[0].end;
        assert chunks[0].end < chunks[i].end;
      }
    }
  }

  /**
   * When the span `[current, endTime)` is empty, the chunk loop queries
   * nothing, writes nothing, saves no checkpoint and returns no error.
   */
  lemma EmptySpanExportsNothing(cfg: LokiConfig, client: Request -> Exchange, checkpointWritable: bool,
                                current: Time, endTime: Time, chunkTime: Duration, runs: seq<ChunkRun>, err: Option<ExportError>)
    requires chunkTime > 0 && current >= endTime
    requires ChunksExported(cfg, client, checkpointWritable, Chunks(current, endTime, chunkTime), runs, err)
    ensures runs == [] && err.None? && RunEvents(runs) == []
  {
    ChunksTile(current, endTime, chunkTime);
  }

  /**
   * A chunk loop that returns no error over a non-empty span has saved every
   * planned chunk, the last ending at `endTime`, which the checkpoint file
   * then holds.
   */
  lemma CompletedRunReachesEnd(cfg: LokiConfig, client: Request -> Exchange, checkpointWritable: bool,
                               current: Time, endTime: Time, chunkTime: Duration, runs: seq<ChunkRun>, file: CheckpointFile)
    requires chunkTime > 0 && current < endTime
    requires ChunksExported(cfg, client, checkpointWritable, Chunks(current, endTime, chunkTime), runs, None)
    ensures runs != [] && runs[|runs| - 1].saved && runs[|runs| - 1].chunk.end == endTime
    ensures LastSaved(runs, file) == Holds(endTime)
  {
    var chunks := Chunks(current, endTime, chunkTime);
    ChunksTile(current, endTime, chunkTime);
    assert RunFollows(cfg, client, chunks, runs, |runs| - 1);
  }

  /**
   * With a chunk time shorter than the 10 s buffer, the first chunk planned
   * from a checkpoint ends before that checkpoint: a run that saves only its
   * first chunk leaves the checkpoint earlier than it found it.
   */
  lemma FirstChunkEndsBeforeCheckpoint(checkpoint: Time, now: Time, chunkTime: Duration)
    requires 0 < chunkTime < Buffer && checkpoint - Buffer + chunkTime < now
    ensures var chunks := Chunks(checkpoint - Buffer, now, chunkTime);
      chunks != [] && chunks[0].end == checkpoint - Buffer + chunkTime < checkpoint
  {
    ChunksTile(checkpoint - Buffer, now, chunkTime);
  }

  /** The chunk loop is at `current`, after saved runs of the planned chunks before it. */
  ghost predicate ChunksUnderWay(cfg: LokiConfig, client: Request -> Exchange, chunks: seq<Chunk>, runs: seq<ChunkRun>,
                                 current: Time, endTime: Time, chunkTime: Duration) {
    && chunkTime > 0
    && |runs| <= |chunks| && Chunks(current, endTime, chunkTime) == chunks[|runs|..]
    && RunsFollow(cfg, client, chunks, runs)
    && (forall k :: 0 <= k < |runs| ==> runs[k].saved)
  }

  /**
   * The output file, the checkpoint file and the change log hold, past their
   * state `events0`, `output0`, `file0`, the changes of `runs`.
   */
  ghost predicate WroteRuns(fs: FileSystem, events0: seq<DiskEvent>, output0: string, file0: CheckpointFile, runs: seq<ChunkRun>)
    reads fs
  {
    && fs.events == events0 + RunEvents(runs)
    && fs.output == output0 + AppendedText(RunEvents(runs))
    && fs.checkpoint == LastSaved(runs, file0)
  }

  /** A run of the chunk at `current` is a run of the next planned chunk; after a save the loop is under way at the chunk end. */
  lemma ChunkLoopStep(cfg: LokiConfig, client: Request -> Exchange, chunks: seq<Chunk>, runs: seq<ChunkRun>, run: ChunkRun,
                      current: Time, endTime: Time, chunkTime: Duration)
    requires ChunksUnderWay(cfg, client, chunks, runs, current, endTime, chunkTime)
    requires current < endTime
    requires run.chunk == Chunk(current, ChunkEnd(current, chunkTime, endTime))
    requires run.saved ==> ChunkExhausted(cfg, client, run.chunk, run.pages)
    ensures |runs| < |chunks| && run.chunk == chunks[|runs|]
    ensures RunsFollow(cfg, client, chunks, runs + [run])
    ensures run.saved ==> ChunksUnderWay(cfg, client, chunks, runs + [run], ChunkEnd(current, chunkTime, endTime), endTime, chunkTime)
  {
    ChunksStep(chunks, |runs|, current, endTime, chunkTime);
    RunsFollowExtend(cfg, client, chunks, runs, run);
  }

  /** The files after one more run hold the changes of the runs so far and of that run. */
  lemma WroteRunsStep(fs: FileSystem, events0: seq<DiskEvent>, output0: string, file0: CheckpointFile, runs: seq<ChunkRun>, run: ChunkRun,
                      events: seq<DiskEvent>, output: string)
    requires events == events0 + RunEvents(runs) && output == output0 + AppendedText(RunEvents(runs))
    requires fs.events == events + PageEvents(run.pages) + (if run.saved then [CheckpointWritten(run.chunk.end)] else [])
    requires fs.output == output + AppendedText(PageEvents(run.pages))
    requires fs.checkpoint == (if run.saved then Holds(run.chunk.end) else LastSaved(runs, file0))
    ensures WroteRuns(fs, events0, output0, file0, runs + [run])
  {
    RunStep(events0, events, fs.events, output0, output, fs.output, runs, run);
    assert (runs + [run])[..|runs|] == runs;
  }

  lemma SavesPossibleExtend(checkpointWritable: bool, runs: seq<ChunkRun>, run: ChunkRun)
    requires SavesPossible(checkpointWritable, runs)
    requires run.saved ==> SavePossible(checkpointWritable, run.chunk)
    ensures SavesPossible(checkpointWritable, runs + [run])
  {
    assert forall k :: 0 <= k < |runs| ==> (runs + [run])[k] == runs[k];
  }

  /**
   * With a checkpoint file that cannot be written, the chunk loop over a
   * non-empty span saves nothing and fails on the first chunk: at its
   * fetch, or when saving its end.
   */
  lemma UnwritableCheckpointFails(cfg: LokiConfig, client: Request -> Exchange,
                                  current: Time, endTime: Time, chunkTime: Duration, runs: seq<ChunkRun>, err: Option<ExportError>)
    requires chunkTime > 0 && current < endTime
    requires ChunksExported(cfg, client, false, Chunks(current, endTime, chunkTime), runs, err)
    ensures err.Some? && |runs| == 1 && !runs[0].saved && RunEvents(runs) == PageEvents(runs[0].pages)
    ensures err.value.SaveFailed? ==> ChunkExhausted(cfg, client, runs[0].chunk, runs[0].pages)
  {
    var chunks := Chunks(current, endTime, chunkTime);
    ChunksTile(current, endTime, chunkTime);
    assert !runs[0].saved;
    assert RunFollows(cfg, client, chunks, runs, 0);
    assert runs[..0] == [];
  }

  /**
   * The chunk loop of `FetchAndProcessLogs` from `currentTime` to `endTime`:
   * export the chunks one after the other and stop at the first error.
   */
  method ExportChunks(cfg: LokiConfig, client: Request -> Exchange, fs: FileSystem, currentTime: Time, endTime: Time, chunkTime: Duration)
    returns (err: Option<ExportError>, ghost runs: seq<ChunkRun>)
    requires chunkTime > 0
    requires Honours(cfg, client)
    modifies fs
    ensures ChunksExported(cfg, client, fs.checkpointWritable, Chunks(currentTime, endTime, chunkTime), runs, err)
    ensures WroteRuns(fs, old(fs.events), old(fs.output), old(fs.checkpoint), runs)
    ensures fs.checkpointWritable == old(fs.checkpointWritable)
  {
    ghost var chunks := Chunks(currentTime, endTime, chunkTime);
    var current := currentTime;
    runs := [];
    while current < endTime
      invariant ChunksUnderWay(cfg, client, chunks, runs, current, endTime, chunkTime)
      invariant WroteRuns(fs, old(fs.events), old(fs.output), old(fs.checkpoint), runs)
      invariant fs.checkpointWritable == old(fs.checkpointWritable)
      invariant SavesPossible(fs.checkpointWritable, runs)
      decreases endTime - current
    {
      var chunkEndTime := current + chunkTime;
      if chunkEndTime > endTime {
        chunkEndTime := endTime;
      }
      var chunk := Chunk(current, chunkEndTime);
      assert chunkEndTime == ChunkEnd(current, chunkTime, endTime);
      ghost var events, output := fs.events, fs.output;
      var e, run := ExportChunk(cfg, client, fs, chunk);
      WroteRunsStep(fs, old(fs.events), old(fs.output), old(fs.checkpoint), runs, run, events, output);
      ChunkLoopStep(cfg, client, chunks, runs, run, current, endTime, chunkTime);
      SavesPossibleExtend(fs.checkpointWritable, runs, run);
      runs := runs + [run];
      if e.Some? {
        return e, runs;
      }
      current := chunkEndTime;
    }
    err := None;
  }

  /**
   * `FetchAndProcessLogs`: recover the checkpoint, then export the chunks of
   * `[checkpoint - 10s, now)` one after the other, saving each chunk's end
   * once all its pages are written, and stop at the first error.
   */
  method FetchAndProcessLogs(cfg: LokiConfig, client: Request -> Exchange, fs: FileSystem, chunkTime: Duration, now: Time)
    returns (err: Option<ExportError>, ghost runs: seq<ChunkRun>)
    requires chunkTime > 0
    requires Honours(cfg, client)
    modifies fs
    ensures fs.checkpointWritable == old(fs.checkpointWritable)
    ensures old(fs.checkpoint).Corrupt? && !old(fs.checkpointWritable) ==>
      && err == Some(CheckpointNotRemoved(RemoveFailed)) && runs == []
      && fs.checkpoint == old(fs.checkpoint) && fs.events == old(fs.events) && fs.output == old(fs.output)
    ensures !(old(fs.checkpoint).Corrupt? && !old(fs.checkpointWritable)) ==>
      && ChunksExported(cfg, client, old(fs.checkpointWritable), PlannedChunks(old(fs.checkpoint), now, chunkTime), runs, err)
      && fs.events == old(fs.events) + RecoveryEvents(old(fs.checkpoint)) + RunEvents(runs)
      && fs.output == old(fs.output) + AppendedText(RunEvents(runs))
      && fs.checkpoint == LastSaved(runs, Recovered(old(fs.checkpoint)))
  {
    var loaded, _ := LoadCheckpointWithRetry(fs, now);
    if loaded.Failure? {
      return Some(CheckpointNotRemoved(loaded.error)), [];
    }
    var checkpoint := loaded.value;
    var startTime := checkpoint.lastTimestamp;
    err, runs := ExportChunks(cfg, client, fs, startTime - Buffer, now, chunkTime);
  }
}
