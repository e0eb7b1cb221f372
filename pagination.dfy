/**
 * The cursor pagination of one chunk: the pages a chunk yields, how each
 * page's cursor follows from the pages before it, when pagination goes on,
 * and why the cursor advances.
 */
module Pagination {
  import opened GoTime
  import opened Outcomes
  import opened Query
  import opened Disk
  import opened Chunking

  /** One page query of a chunk: its cursor and what it returned. */
  datatype Page = Page(cursor: Time, lines: seq<string>, lastTimestamp: Time)

  /**
   * Pagination goes on after a page of `size` lines: the page was full, its
   * last timestamp is set, and that timestamp is before the chunk end.
   */
  predicate Continues(size: int, lastTimestamp: Time, maxQueryLogs: int, chunkEnd: Time) {
    !(size < maxQueryLogs || IsZero(lastTimestamp) || !(lastTimestamp < chunkEnd))
  }

  /**
   * The server keeps to the requested window: a page after which pagination
   * would go on never ends before the start it was asked for.
   */
  ghost predicate Honours(cfg: LokiConfig, client: Request -> Exchange) {
    forall s: Time, e: Time, c: Time, lines: seq<string>, last: Time ::
      PageOutcome(Send(client, QueryRequest(cfg, s, e, c, cfg.maxQueryLogs)), lines, last, None)
      && Continues(|lines|, last, cfg.maxQueryLogs, e)
      ==> last >= EffectiveStart(s, c)
  }

  /** The cursor of the page after `pages`: the chunk start, then one nanosecond past the last timestamp. */
  function NextCursor(chunk: Chunk, pages: seq<Page>): Time {
    if pages == [] then chunk.start else pages[|pages| - 1].lastTimestamp + Nanosecond
  }

  /** Page `i` was queried at the cursor the pages before it lead to. */
  predicate CursorFollows(chunk: Chunk, pages: seq<Page>, i: int)
    requires 0 <= i < |pages|
  {
    pages[i].cursor == NextCursor(chunk, pages[..i])
  }

  predicate PageContinues(cfg: LokiConfig, chunk: Chunk, p: Page) {
    Continues(|p.lines|, p.lastTimestamp, cfg.maxQueryLogs, chunk.end)
  }

  /** `p` is what the server returned for the query of `chunk` at `p.cursor`. */
  ghost predicate PageFetched(cfg: LokiConfig, client: Request -> Exchange, chunk: Chunk, p: Page) {
    PageOutcome(Send(client, QueryRequest(cfg, chunk.start, chunk.end, p.cursor, cfg.maxQueryLogs)), p.lines, p.lastTimestamp, None)
  }

  /** Page `i` is what the server returned for its cursor, which its predecessors lead to; unless it is the last, it said "go on". */
  ghost predicate ChainLink(cfg: LokiConfig, client: Request -> Exchange, chunk: Chunk, pages: seq<Page>, i: int)
    requires 0 <= i < |pages|
  {
    && PageFetched(cfg, client, chunk, pages[i])
    && CursorFollows(chunk, pages, i)
    && (i < |pages| - 1 ==> PageContinues(cfg, chunk, pages[i]))
  }

  /** Every page of the chain is linked to the ones before it. */
  ghost predicate PagesChained(cfg: LokiConfig, client: Request -> Exchange, chunk: Chunk, pages: seq<Page>) {
    forall i :: 0 <= i < |pages| ==> ChainLink(cfg, client, chunk, pages, i)
  }

  /** Pagination of `chunk` ended normally after `pages`. */
  ghost predicate ChunkExhausted(cfg: LokiConfig, client: Request -> Exchange, chunk: Chunk, pages: seq<Page>) {
    && PagesChained(cfg, client, chunk, pages)
    && pages != []
    && !PageContinues(cfg, chunk, pages[|pages| - 1])
  }

  /** Pagination of `chunk` went on after `pages`, and the next query failed with `e`. */
  ghost predicate ChunkAborted(cfg: LokiConfig, client: Request -> Exchange, chunk: Chunk, pages: seq<Page>, e: FetchError) {
    && PagesChained(cfg, client, chunk, pages)
    && (pages != [] ==> PageContinues(cfg, chunk, pages[|pages| - 1]))
    && ReplyError(Send(client, QueryRequest(cfg, chunk.start, chunk.end, NextCursor(chunk, pages), cfg.maxQueryLogs))) == Some(e)
  }

  /**
   * Pagination of `chunk` is under way after `pages`, and `cursor` is where
   * the next query starts: every page so far said "go on".
   */
  ghost predicate Paging(cfg: LokiConfig, client: Request -> Exchange, chunk: Chunk, pages: seq<Page>, cursor: Time) {
    && PagesChained(cfg, client, chunk, pages)
    && (pages != [] ==> PageContinues(cfg, chunk, pages[|pages| - 1]))
    && cursor == NextCursor(chunk, pages)
    && chunk.start <= cursor <= chunk.end
    && (cursor == chunk.start || InInt64(cursor - Nanosecond))
  }

  /** The output appends of a chunk's pages, one per page. */
  function PageEvents(pages: seq<Page>): seq<DiskEvent>
    decreases |pages|
  {
    if pages == [] then [] else PageEvents(pages[..|pages| - 1]) + [Appended(Lines(pages[|pages| - 1].lines))]
  }

  lemma {:induction false} PageEventsWriteNoCheckpoint(pages: seq<Page>)
    ensures CheckpointWrites(PageEvents(pages)) == []
    decreases |pages|
  {
    if pages != [] {
      var init := pages[..|pages| - 1];
      PageEventsWriteNoCheckpoint(init);
      CheckpointWritesAppend(PageEvents(init), [Appended(Lines(pages[|pages| - 1].lines))]);
    }
  }

  /**
   * The cursor bookkeeping of a chain of pages: each page was queried at the
   * cursor its predecessors lead to, and each page after which pagination
   * went on ended at or after its own cursor and before the chunk end.
   */
  predicate CursorsAdvance(chunk: Chunk, pages: seq<Page>) {
    && (forall i :: 0 <= i < |pages| ==> CursorFollows(chunk, pages, i))
    && (forall i :: 0 <= i < |pages| - 1 ==> pages[i].cursor <= pages[i].lastTimestamp < chunk.end)
  }

  /** Against a server that keeps to the window, the cursors of a chain advance. */
  lemma ChainAdvances(cfg: LokiConfig, client: Request -> Exchange, chunk: Chunk, pages: seq<Page>)
    requires Honours(cfg, client)
    requires PagesChained(cfg, client, chunk, pages)
    ensures CursorsAdvance(chunk, pages)
  {
    forall i | 0 <= i < |pages| ensures CursorFollows(chunk, pages, i) {
      assert ChainLink(cfg, client, chunk, pages, i);
    }
    forall i | 0 <= i < |pages| - 1 ensures pages[i].cursor <= pages[i].lastTimestamp < chunk.end {
      CursorStep(cfg, client, chunk, pages, i);
    }
  }

  lemma CursorStep(cfg: LokiConfig, client: Request -> Exchange, chunk: Chunk, pages: seq<Page>, i: int)
    requires Honours(cfg, client)
    requires PagesChained(cfg, client, chunk, pages)
    requires 0 <= i < |pages| - 1
    ensures pages[i].cursor <= pages[i].lastTimestamp < chunk.end
  {
    var p := pages[i];
    assert ChainLink(cfg, client, chunk, pages, i);
    assert EffectiveStart(chunk.start, p.cursor) == p.cursor by {
      if i > 0 {
        var q := pages[i - 1];
        assert ChainLink(cfg, client, chunk, pages, i - 1);
        assert pages[..i][i - 1] == q;
        assert InInt64(PageLast(Send(client, QueryRequest(cfg, chunk.start, chunk.end, q.cursor, cfg.maxQueryLogs))));
      }
    }
  }

  lemma CursorAfter(chunk: Chunk, pages: seq<Page>, i: int)
    requires CursorsAdvance(chunk, pages)
    requires 0 <= i < |pages| - 1
    ensures pages[i].cursor < pages[i + 1].cursor <= chunk.end
  {
    assert CursorFollows(chunk, pages, i + 1);
    assert pages[..i + 1][i] == pages[i];
  }

  /**
   * Within a chunk whose cursors advance, each cursor is strictly after the
   * one before and never past the chunk end, so a chunk takes at most
   * `end - start + 1` queries.
   */
  lemma {:induction false} PaginationBounded(chunk: Chunk, pages: seq<Page>)
    requires CursorsAdvance(chunk, pages)
    requires chunk.start < chunk.end
    ensures forall i, j :: 0 <= i < j < |pages| ==> pages[i].cursor < pages[j].cursor
    ensures forall i :: 0 <= i < |pages| ==> chunk.start + i <= pages[i].cursor <= chunk.end
    ensures |pages| <= chunk.end - chunk.start + 1
  {
    var n := 0;
    while n < |pages|
      invariant 0 <= n <= |pages|
      invariant forall j :: 0 <= j < n ==> chunk.start + j <= pages[j].cursor <= chunk.end
      invariant forall i, j :: 0 <= i < j < n ==> pages[i].cursor < pages[j].cursor
    {
      if n == 0 {
        assert CursorFollows(chunk, pages, 0);
      } else {
        CursorAfter(chunk, pages, n - 1);
      }
      n := n + 1;
    }
    if pages != [] {
      assert chunk.start + (|pages| - 1) <= pages[|pages| - 1].cursor;
    }
  }

  /** A page fetched at the next cursor, after a page that said "go on", extends the chain. */
  lemma ChainExtend(cfg: LokiConfig, client: Request -> Exchange, chunk: Chunk, pages: seq<Page>, page: Page)
    requires PagesChained(cfg, client, chunk, pages)
    requires pages != [] ==> PageContinues(cfg, chunk, pages[|pages| - 1])
    requires page.cursor == NextCursor(chunk, pages)
    requires PageFetched(cfg, client, chunk, page)
    ensures PagesChained(cfg, client, chunk, pages + [page])
  {
    var ext := pages + [page];
    assert ext[..|pages|] == pages;
    forall i | 0 <= i < |ext| ensures ChainLink(cfg, client, chunk, ext, i) {
      if i < |pages| {
        assert ChainLink(cfg, client, chunk, pages, i);
        assert ext[i] == pages[i] && ext[..i] == pages[..i];
        assert CursorFollows(chunk, ext, i);
      } else {
        assert CursorFollows(chunk, ext, i);
      }
    }
  }

  lemma PageEventsExtend(pages: seq<Page>, page: Page)
    ensures PageEvents(pages + [page]) == PageEvents(pages) + [Appended(Lines(page.lines))]
    ensures AppendedText(PageEvents(pages + [page])) == AppendedText(PageEvents(pages)) + Lines(page.lines)
  {
    assert (pages + [page])[..|pages|] == pages;
    AppendedTextAppend(PageEvents(pages), [Appended(Lines(page.lines))]);
  }

  /**
   * A page fetched at the cursor of a chunk under way either ends the
   * chunk's pagination, or leaves it under way at a later cursor.
   */
  lemma PageStep(cfg: LokiConfig, client: Request -> Exchange, chunk: Chunk, pages: seq<Page>, page: Page)
    requires Honours(cfg, client)
    requires Paging(cfg, client, chunk, pages, page.cursor)
    requires PageFetched(cfg, client, chunk, page)
    ensures !PageContinues(cfg, chunk, page) ==> ChunkExhausted(cfg, client, chunk, pages + [page])
    ensures PageContinues(cfg, chunk, page) ==>
      && page.cursor <= page.lastTimestamp < chunk.end
      && Paging(cfg, client, chunk, pages + [page], page.lastTimestamp + Nanosecond)
  {
    ChainExtend(cfg, client, chunk, pages, page);
    if PageContinues(cfg, chunk, page) {
      assert EffectiveStart(chunk.start, page.cursor) == page.cursor;
      assert NextCursor(chunk, pages + [page]) == page.lastTimestamp + Nanosecond;
    }
  }

  /**
   * One query of the pagination loop, at the cursor the pages so far lead
   * to: a failed query aborts the chunk; a page either ends the chunk's
   * pagination or leaves it under way one nanosecond past its last timestamp.
   */
  method FetchPage(cfg: LokiConfig, client: Request -> Exchange, chunk: Chunk, ghost pages: seq<Page>, cursor: Time)
    returns (err: Option<FetchError>, page: Page)
    requires Honours(cfg, client)
    requires Paging(cfg, client, chunk, pages, cursor)
    ensures err.Some? ==> ChunkAborted(cfg, client, chunk, pages, err.value)
    ensures err.None? && !PageContinues(cfg, chunk, page) ==> ChunkExhausted(cfg, client, chunk, pages + [page])
    ensures err.None? && PageContinues(cfg, chunk, page) ==>
      && cursor < page.lastTimestamp + Nanosecond
      && Paging(cfg, client, chunk, pages + [page], page.lastTimestamp + Nanosecond)
  {
    var logs, lastTimestamp, e := FetchLogsFromLoki(cfg, client, chunk.start, chunk.end, cursor, cfg.maxQueryLogs);
    page := Page(cursor, logs, lastTimestamp);
    if e.Some? {
      return e, page;
    }
    PageStep(cfg, client, chunk, pages, page);
    err := None;
  }
}
