/**
 * The ingestion checkpointer (rag-juridique/ingestion/checkpointer.py): the state of one
 * ingestion run, saved to a file so that an interrupted run can resume.
 *
 * The checkpoint file is a field: no file, a file that cannot be read back (bad JSON or
 * no `processed_count` key), or a saved state. The clock is a parameter `now` (seconds),
 * and whether writing the temporary file succeeds is a parameter `writeOk`.
 */
module Checkpointing {
  import opened Wrappers

  /** The JSON document of a checkpoint. */
  datatype CheckpointState = CheckpointState(
    identifier: string,
    lastArticleId: Option<string>,
    processedCount: int,
    errorCount: int,
    startedAt: int,
    lastUpdated: int,
    completed: bool,
    metadata: map<string, string>)

  /** What lies at the checkpoint path. */
  datatype CheckpointFile = NoFile | Unreadable | Saved(state: CheckpointState)

  /** The statistics `get_progress_stats` reports. */
  datatype ProgressStats = ProgressStats(
    processedCount: int,
    errorCount: int,
    errorRate: real,
    durationSeconds: int,
    completed: bool,
    lastArticleId: Option<string>)

  /** Percentage of processed articles that failed, 0 when nothing was processed. */
  function ErrorRate(errors: int, processed: int): (r: real)
    ensures processed > 0 ==> r * processed as real == errors as real * 100.0
    ensures processed <= 0 ==> r == 0.0
    ensures 0 <= errors <= processed ==> 0.0 <= r <= 100.0
  {
    if processed > 0 then errors as real / processed as real * 100.0 else 0.0
  }

  class Checkpointer {
    const identifier: string
    var file: CheckpointFile

    /** A checkpointer for `identifier`, finding `file` at its checkpoint path. */
    constructor(identifier: string, file: CheckpointFile)
      ensures this.identifier == identifier && this.file == file
    {
      this.identifier := identifier;
      this.file := file;
    }

    /** A fresh run: nothing processed, no error, not completed, no metadata. */
    function InitialState(now: int): (r: CheckpointState)
      ensures r.identifier == identifier && r.lastArticleId == None
      ensures r.processedCount == 0 && r.errorCount == 0 && !r.completed
      ensures r.startedAt == now && r.lastUpdated == now && r.metadata == map[]
    {
      CheckpointState(identifier, None, 0, 0, now, now, false, map[])
    }

    /** The saved state, or the initial state when there is no readable checkpoint. */
    function Load(now: int): (r: CheckpointState)
      reads this
      ensures file.Saved? ==> r == file.state
      ensures !file.Saved? ==>
        && r.lastArticleId == None && r.processedCount == 0 && r.errorCount == 0
        && !r.completed && r.metadata == map[] && r.identifier == identifier
    {
      if file.Saved? then file.state else InitialState(now)
    }

    /**
     * Reads the current state, overwrites the fields given, always sets `completed`,
     * stamps `lastUpdated`, merges `metadata` into the saved metadata (new keys win) and
     * writes the file. When writing fails the file is left as it was.
     */
    method Save(lastArticleId: Option<string>, processedCount: Option<int>,
                errorCount: Option<int>, completed: bool, metadata: map<string, string>,
                now: int, writeOk: bool)
      modifies this
      ensures !writeOk ==> file == old(file)
      ensures writeOk ==> file.Saved?
      ensures writeOk ==>
        var before := old(Load(now));
        var s := file.state;
        && s.identifier == before.identifier
        && s.lastArticleId == (if lastArticleId.Some? then lastArticleId else before.lastArticleId)
        && s.processedCount == processedCount.GetOr(before.processedCount)
        && s.errorCount == errorCount.GetOr(before.errorCount)
        && s.completed == completed
        && s.startedAt == before.startedAt
        && s.lastUpdated == now
        && s.metadata == before.metadata + metadata
    {
      var state := Load(now);
      if lastArticleId.Some? {
        state := state.(lastArticleId := lastArticleId);
      }
      if processedCount.Some? {
        state := state.(processedCount := processedCount.value);
      }
      if errorCount.Some? {
        state := state.(errorCount := errorCount.value);
      }
      state := state.(completed := completed, lastUpdated := now);
      if metadata != map[] {
        state := state.(metadata := state.metadata + metadata);
      } else {
        assert state.metadata + metadata == state.metadata;
      }
      if writeOk {
        file := Saved(state);
      }
    }

    /** Marks the run completed; the counters and the resume point are kept. */
    method MarkCompleted(now: int, writeOk: bool)
      modifies this
      ensures !writeOk ==> file == old(file)
      ensures writeOk ==> file.Saved? && file.state.completed
      ensures writeOk ==>
        var before := old(Load(now));
        && file.state.processedCount == before.processedCount
        && file.state.errorCount == before.errorCount
        && file.state.lastArticleId == before.lastArticleId
        && file.state.metadata == before.metadata
    {
      Save(None, None, None, true, map[], now, writeOk);
    }

    /** Deletes the checkpoint: the next load starts a fresh run. */
    method Reset()
      modifies this
      ensures file == NoFile
      ensures forall now :: Load(now) == InitialState(now)
    {
      file := NoFile;
    }

    /** Progress of the run as loaded now; the duration counts from `startedAt`. */
    function ProgressOf(now: int): (r: ProgressStats)
      reads this
      ensures var s := Load(now);
        && r.processedCount == s.processedCount && r.errorCount == s.errorCount
        && r.completed == s.completed && r.lastArticleId == s.lastArticleId
        && r.durationSeconds == now - s.startedAt
      ensures 0 <= Load(now).errorCount <= Load(now).processedCount ==> 0.0 <= r.errorRate <= 100.0
      ensures Load(now).processedCount <= 0 ==> r.errorRate == 0.0
    {
      var s := Load(now);
      ProgressStats(s.processedCount, s.errorCount, ErrorRate(s.errorCount, s.processedCount),
                    now - s.startedAt, s.completed, s.lastArticleId)
    }
  }
}
