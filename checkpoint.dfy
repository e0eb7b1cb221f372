/** `loadCheckpoint`, `saveCheckpoint` and the removal of the checkpoint file. */
module Checkpoints {
  import opened GoTime
  import opened Outcomes
  import opened Disk

  /** `Checkpoint`: the instant up to which logs have been exported. */
  datatype Checkpoint = Checkpoint(lastTimestamp: Time)

  datatype CheckpointError = Unreadable | MarshalFailed | WriteFailed | RemoveFailed

  /** How far back a run without a checkpoint file starts. */
  const Lookback: Duration := 35 * Minute

  /** Where a run resumes, given the checkpoint file it finds (once it is readable). */
  function ResumeFrom(file: CheckpointFile, now: Time): Time {
    if file.Holds? then file.lastTimestamp else now - Lookback
  }

  /**
   * `loadCheckpoint`: a missing file means "35 minutes ago" and is no error;
   * an unreadable or undecodable file is an error.
   */
  method LoadCheckpoint(fs: FileSystem, now: Time) returns (r: Result<Checkpoint, CheckpointError>)
    ensures fs.checkpoint.Absent? ==> r == Success(Checkpoint(now - Lookback))
    ensures fs.checkpoint.Corrupt? ==> r == Failure(Unreadable)
    ensures fs.checkpoint.Holds? ==> r == Success(Checkpoint(fs.checkpoint.lastTimestamp))
  {
    match fs.checkpoint {
      case Absent => r := Success(Checkpoint(now - Lookback));
      case Corrupt => r := Failure(Unreadable);
      case Holds(t) => r := Success(Checkpoint(t));
    }
  }

  /**
   * `saveCheckpoint`: encoding fails for instants outside years 0-9999;
   * writing fails when the file cannot be written; otherwise the file holds
   * the instant.
   */
  method SaveCheckpoint(fs: FileSystem, checkpoint: Checkpoint) returns (err: Option<CheckpointError>)
    modifies fs
    ensures !Rfc3339Representable(checkpoint.lastTimestamp) ==> err == Some(MarshalFailed)
    ensures Rfc3339Representable(checkpoint.lastTimestamp) && !fs.checkpointWritable ==> err == Some(WriteFailed)
    ensures err.None? <==> Rfc3339Representable(checkpoint.lastTimestamp) && fs.checkpointWritable
    ensures err.None? ==> fs.checkpoint == Holds(checkpoint.lastTimestamp) && fs.events == old(fs.events) + [CheckpointWritten(checkpoint.lastTimestamp)]
    ensures err.Some? ==> fs.checkpoint == old(fs.checkpoint) && fs.events == old(fs.events)
    ensures fs.output == old(fs.output) && fs.checkpointWritable == old(fs.checkpointWritable)
  {
    if !Rfc3339Representable(checkpoint.lastTimestamp) {
      return Some(MarshalFailed);
    }
    if !fs.checkpointWritable {
      return Some(WriteFailed);
    }
    fs.checkpoint := Holds(checkpoint.lastTimestamp);
    fs.events := fs.events + [CheckpointWritten(checkpoint.lastTimestamp)];
    err := None;
  }

  /** `os.Remove(c.CheckpointFile)`: fails when there is no file or it cannot be removed. */
  method RemoveCheckpoint(fs: FileSystem) returns (err: Option<CheckpointError>)
    modifies fs
    ensures err.None? <==> !old(fs.checkpoint).Absent? && fs.checkpointWritable
    ensures err.None? ==> fs.checkpoint == Absent && fs.events == old(fs.events) + [CheckpointRemoved]
    ensures err.Some? ==> err == Some(RemoveFailed) && fs.checkpoint == old(fs.checkpoint) && fs.events == old(fs.events)
    ensures fs.output == old(fs.output) && fs.checkpointWritable == old(fs.checkpointWritable)
  {
    if fs.checkpoint.Absent? || !fs.checkpointWritable {
      return Some(RemoveFailed);
    }
    fs.checkpoint := Absent;
    fs.events := fs.events + [CheckpointRemoved];
    err := None;
  }

  /** A successful save followed by a load gives back the saved instant. */
  method SaveThenLoad(fs: FileSystem, checkpoint: Checkpoint, now: Time) returns (saved: Option<CheckpointError>, loaded: Result<Checkpoint, CheckpointError>)
    modifies fs
    ensures saved.None? ==> loaded == Success(checkpoint)
    ensures saved.Some? ==> fs.checkpoint == old(fs.checkpoint)
  {
    saved := SaveCheckpoint(fs, checkpoint);
    loaded := LoadCheckpoint(fs, now);
  }
}
