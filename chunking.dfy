/** How the span `[checkpoint - buffer, now)` is cut into chunks. */
module Chunking {
  import opened GoTime

  datatype Chunk = Chunk(start: Time, end: Time)

  /** `currentTime.Add(chunkTime)`, pulled back to `endTime` when it is after it. */
  function ChunkEnd(current: Time, chunkTime: Duration, endTime: Time): (e: Time)
    ensures e <= endTime && e <= current + chunkTime
    ensures e == endTime || e == current + chunkTime
  {
    var chunkEnd := current + chunkTime;
    if chunkEnd > endTime then endTime else chunkEnd
  }

  /** The chunks the export loop visits, from `current` on. */
  function Chunks(current: Time, endTime: Time, chunkTime: Duration): seq<Chunk>
    requires chunkTime > 0
    decreases endTime - current
  {
    if current < endTime then
      var chunkEnd := ChunkEnd(current, chunkTime, endTime);
      [Chunk(current, chunkEnd)] + Chunks(chunkEnd, endTime, chunkTime)
    else []
  }

  /** Where the loop stands in the plan: the next chunk, and the plan after it. */
  lemma ChunksStep(chunks: seq<Chunk>, i: nat, current: Time, endTime: Time, chunkTime: Duration)
    requires chunkTime > 0 && current < endTime
    requires i <= |chunks| && Chunks(current, endTime, chunkTime) == chunks[i..]
    ensures i < |chunks| && chunks[i] == Chunk(current, ChunkEnd(current, chunkTime, endTime))
    ensures Chunks(ChunkEnd(current, chunkTime, endTime), endTime, chunkTime) == chunks[i + 1..]
  {
    assert chunks[i + 1..] == chunks[i..][1..];
  }

  /**
   * The chunks tile `[current, endTime)`: there are none iff the span is
   * empty; the first starts at `current`; each is non-empty, ends at
   * `min(start + chunkTime, endTime)`, and the next starts where it ends; the
   * last ends at `endTime`.
   */
  lemma {:induction false} ChunksTile(current: Time, endTime: Time, chunkTime: Duration)
    requires chunkTime > 0
    ensures var cs := Chunks(current, endTime, chunkTime);
      && (cs == [] <==> current >= endTime)
      && (cs != [] ==> cs[0].start == current && cs[|cs| - 1].end == endTime)
      && (forall k :: 0 <= k < |cs| ==>
            && cs[k].start < cs[k].end <= endTime
            && cs[k].end == (if cs[k].start + chunkTime < endTime then cs[k].start + chunkTime else endTime))
      && (forall k :: 0 <= k < |cs| - 1 ==> cs[k + 1].start == cs[k].end)
    decreases endTime - current
  {
    if current < endTime {
      var chunkEnd := ChunkEnd(current, chunkTime, endTime);
      ChunksTile(chunkEnd, endTime, chunkTime);
      var cs := Chunks(current, endTime, chunkTime);
      var rest := Chunks(chunkEnd, endTime, chunkTime);
      assert cs == [Chunk(current, chunkEnd)] + rest;
      forall k | 0 < k < |cs| ensures cs[k] == rest[k - 1] { }
    }
  }

  /** Chunk ends strictly increase, so the saved checkpoints do too. */
  lemma {:induction false} ChunkEndsIncrease(current: Time, endTime: Time, chunkTime: Duration)
    requires chunkTime > 0
    ensures var cs := Chunks(current, endTime, chunkTime);
      forall i, j :: 0 <= i < j < |cs| ==> cs[i].end < cs[j].end
    decreases endTime - current
  {
    if current < endTime {
      var chunkEnd := ChunkEnd(current, chunkTime, endTime);
      ChunkEndsIncrease(chunkEnd, endTime, chunkTime);
      ChunksTile(chunkEnd, endTime, chunkTime);
      var cs := Chunks(current, endTime, chunkTime);
      var rest := Chunks(chunkEnd, endTime, chunkTime);
      assert cs == [Chunk(current, chunkEnd)] + rest;
      forall i, j | 0 <= i < j < |cs| ensures cs[i].end < cs[j].end {
        if i > 0 {
          assert cs[i] == rest[i - 1] && cs[j] == rest[j - 1];
        } else {
          assert cs[j] == rest[j - 1];
          assert rest[0].start == chunkEnd;
        }
      }
    }
  }

  /**
   * A non-empty span of length `L` takes `ceil(L / chunkTime)` chunks: the
   * fewest chunks of length `chunkTime` that cover it.
   */
  lemma {:induction false} ChunkCount(current: Time, endTime: Time, chunkTime: Duration)
    requires chunkTime > 0 && current < endTime
    ensures var n := |Chunks(current, endTime, chunkTime)|;
      (n - 1) * chunkTime < endTime - current <= n * chunkTime
    decreases endTime - current
  {
    var chunkEnd := ChunkEnd(current, chunkTime, endTime);
    if chunkEnd < endTime {
      ChunkCount(chunkEnd, endTime, chunkTime);
      var n := |Chunks(chunkEnd, endTime, chunkTime)|;
      assert |Chunks(current, endTime, chunkTime)| == n + 1;
      assert (n + 1) * chunkTime == n * chunkTime + chunkTime;
      assert n * chunkTime == (n - 1) * chunkTime + chunkTime;
    } else {
      assert Chunks(chunkEnd, endTime, chunkTime) == [];
    }
  }
}
