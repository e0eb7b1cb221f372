/**
 * The local files the exporter touches: the checkpoint file and the output
 * file. A ghost log records every change, in order, so that the order of
 * writes can be stated.
 */
module Disk {
  import opened GoTime

  /** What the checkpoint file holds: nothing, something unreadable, or an instant. */
  datatype CheckpointFile = Absent | Corrupt | Holds(lastTimestamp: Time)

  /** A change to the files. */
  datatype DiskEvent = Appended(text: string) | CheckpointWritten(lastTimestamp: Time) | CheckpointRemoved

  /** The text `WriteLogs` appends: every line followed by a newline. */
  function Lines(logs: seq<string>): string
    decreases |logs|
  {
    if logs == [] then "" else Lines(logs[..|logs| - 1]) + logs[|logs| - 1] + "\n"
  }

  /** Everything appended to the output file by a sequence of changes. */
  function AppendedText(events: seq<DiskEvent>): string
    decreases |events|
  {
    if events == [] then ""
    else
      var rest := AppendedText(events[..|events| - 1]);
      match events[|events| - 1]
      case Appended(text) => rest + text
      case _ => rest
  }

  /** Every checkpoint value written by a sequence of changes, in order. */
  function CheckpointWrites(events: seq<DiskEvent>): seq<Time>
    decreases |events|
  {
    if events == [] then []
    else
      var rest := CheckpointWrites(events[..|events| - 1]);
      match events[|events| - 1]
      case CheckpointWritten(t) => rest + [t]
      case _ => rest
  }

  lemma {:induction false} LinesAppend(a: seq<string>, b: seq<string>)
    ensures Lines(a + b) == Lines(a) + Lines(b)
    decreases |b|
  {
    if b == [] {
      assert a + b == a;
    } else {
      assert (a + b)[..|a + b| - 1] == a + b[..|b| - 1];
      LinesAppend(a, b[..|b| - 1]);
    }
  }

  lemma {:induction false} AppendedTextAppend(a: seq<DiskEvent>, b: seq<DiskEvent>)
    ensures AppendedText(a + b) == AppendedText(a) + AppendedText(b)
    decreases |b|
  {
    if b == [] {
      assert a + b == a;
    } else {
      assert (a + b)[..|a + b| - 1] == a + b[..|b| - 1];
      AppendedTextAppend(a, b[..|b| - 1]);
    }
  }

  lemma {:induction false} CheckpointWritesAppend(a: seq<DiskEvent>, b: seq<DiskEvent>)
    ensures CheckpointWrites(a + b) == CheckpointWrites(a) + CheckpointWrites(b)
    decreases |b|
  {
    if b == [] {
      assert a + b == a;
    } else {
      assert (a + b)[..|a + b| - 1] == a + b[..|b| - 1];
      CheckpointWritesAppend(a, b[..|b| - 1]);
    }
  }

  class FileSystem {
    var checkpoint: CheckpointFile
    /** False when the checkpoint file can neither be written nor removed. */
    var checkpointWritable: bool
    /** The content of the output file. */
    var output: string
    ghost var events: seq<DiskEvent>

    constructor (checkpoint: CheckpointFile, checkpointWritable: bool, output: string)
      ensures this.checkpoint == checkpoint && this.checkpointWritable == checkpointWritable
      ensures this.output == output && events == []
    {
      this.checkpoint := checkpoint;
      this.checkpointWritable := checkpointWritable;
      this.output := output;
      events := [];
    }

    /** `WriteLogs(filename, logs)`: append every line and a newline to the output file. */
    method WriteLogs(logs: seq<string>)
      modifies this
      ensures output == old(output) + Lines(logs)
      ensures events == old(events) + [Appended(Lines(logs))]
      ensures checkpoint == old(checkpoint) && checkpointWritable == old(checkpointWritable)
    {
      ghost var before := output;
      for i := 0 to |logs|
        invariant output == before + Lines(logs[..i])
        invariant checkpoint == old(checkpoint) && checkpointWritable == old(checkpointWritable)
        invariant events == old(events)
      {
        assert logs[..i + 1][..i] == logs[..i];
        output := output + logs[i] + "\n";
      }
      assert logs[..|logs|] == logs;
      events := events + [Appended(Lines(logs))];
    }
  }
}
