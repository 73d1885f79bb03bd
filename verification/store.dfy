/** The two files the program persists (`commit_checkpoint.json` and
    `results.json`) and how they are saved and loaded (`save_checkpoint`,
    `load_checkpoint`, `save_results`, `load_results`, `resume`,
    `fresh_start`). Serialisation is the identity: a file that was written
    completely loads as the value written. */
module Store {
  import opened Outcomes
  import opened Commits
  import opened Results
  import Checkpoint

  /** A file as the next load finds it: absent, present but not parseable,
      or holding a value. */
  datatype FileState<T> = Missing | Unreadable | Holds(content: T)

  /** The persisted state: the checkpoint file and the results file. */
  datatype Disk = Disk(checkpoint: FileState<Hash>, results: FileState<AllResults>)

  /** How a save ends. `Lands`: it completes. `Lost`: it fails or the
      process stops before the file is touched (serialisation, or opening
      the file, fails). `Torn`: it stops after the file was opened for
      writing and before the write completed. `Unsynced`: the whole content
      was written and then `sync_all` failed or the process stopped during
      it, so the file holds the new content although the save failed. */
  datatype WriteFate = Lands | Lost | Torn | Unsynced

  /** The save put the whole new content into the file, whether or not it
      then reported success. */
  predicate Written(fate: WriteFate) {
    fate == Lands || fate == Unsynced
  }

  /** How a file is replaced. The program truncates the file and then writes
      it (`File::create`, `write_all`, `sync_all`); the alternative writes a
      new file and renames it over the old one in one step. */
  datatype SaveDiscipline = TruncateThenWrite | ReplaceAtomically

  /** The file after saving `v` over `file`. A save that wrote its content
      holds `v`, whether or not it then synced; one that never touched the
      file leaves the old content; a truncating save torn mid-write leaves a
      file that does not parse, and nothing else makes a readable file
      unreadable; an atomic save always leaves either the old or the new
      content. */
  function Save<T>(file: FileState<T>, v: T, fate: WriteFate, discipline: SaveDiscipline): (f: FileState<T>)
    ensures Written(fate) ==> f == Holds(v)
    ensures fate == Lost ==> f == file
    ensures f == Unreadable ==> file == Unreadable || (fate == Torn && discipline == TruncateThenWrite)
    ensures discipline == ReplaceAtomically ==> f == Holds(v) || f == file
    ensures fate == Torn && discipline == TruncateThenWrite ==> f == Unreadable
    ensures fate == Torn && discipline == ReplaceAtomically ==> f == file
  {
    match fate
    case Lands => Holds(v)
    case Unsynced => Holds(v)
    case Lost => file
    case Torn => if discipline == TruncateThenWrite then Unreadable else file
  }

  /** Why the program cannot start: a file that does not parse (an I/O
      error in the program) or a checkpoint naming an unknown revision (a
      panic in the program). Either way the process exits with failure. */
  datatype LoadError = CorruptCheckpoint | UnknownCheckpoint(error: Checkpoint.ResumeError) | CorruptResults

  /** `load_checkpoint`: the resume index the checkpoint file gives. */
  function LoadCheckpoint(file: FileState<Hash>, commits: seq<Hash>): (r: Result<nat, LoadError>)
    ensures file == Missing ==> r == Ok(0)
    ensures file == Unreadable ==> r == Err(CorruptCheckpoint)
    ensures file.Holds? && file.content !in commits ==>
      r == Err(UnknownCheckpoint(Checkpoint.NonExistentCommit(file.content)))
    ensures file.Holds? && file.content in commits ==>
      && r.Ok? && r.value < |commits| && commits[r.value] == file.content
      && forall i :: 0 <= i < r.value ==> commits[i] != file.content
  {
    match file
    case Unreadable => Err(CorruptCheckpoint)
    case Missing =>
      assert Checkpoint.ResumeIndex(None, commits) == Ok(0);
      Ok(0)
    case Holds(hash) =>
      match Checkpoint.ResumeIndex(Some(hash), commits)
      case Err(e) => Err(UnknownCheckpoint(e))
      case Ok(i) => Ok(i)
  }

  /** `load_results`: the persisted results, or an empty accumulator when
      there is no results file. */
  function LoadResults(file: FileState<AllResults>): (r: Result<AllResults, LoadError>)
    ensures file == Missing ==> r == Ok(NewAllResults())
    ensures file == Unreadable ==> r == Err(CorruptResults)
    ensures file.Holds? ==> r == Ok(file.content)
  {
    match file
    case Missing => Ok(NewAllResults())
    case Unreadable => Err(CorruptResults)
    case Holds(results) => Ok(results)
  }

  /** `resume`: the resume index and the loaded results, the checkpoint file
      being read first. With no checkpoint file the index is 0 whatever the
      results file holds; a checkpoint naming an unlisted revision is an
      error, never a silent 0. */
  function Resume(disk: Disk, commits: seq<Hash>): (r: Result<(nat, AllResults), LoadError>)
    ensures disk.checkpoint == Missing && disk.results != Unreadable ==> r.Ok? && r.value.0 == 0
    ensures disk.checkpoint.Holds? && disk.checkpoint.content !in commits ==>
      r == Err(UnknownCheckpoint(Checkpoint.NonExistentCommit(disk.checkpoint.content)))
    ensures disk.checkpoint == Unreadable ==> r == Err(CorruptCheckpoint)
    ensures disk.results == Unreadable ==> r.Err?
    ensures r.Ok? && disk.checkpoint.Holds? ==>
      r.value.0 < |commits| && commits[r.value.0] == disk.checkpoint.content
    ensures r.Ok? ==> LoadCheckpoint(disk.checkpoint, commits) == Ok(r.value.0)
    ensures r.Ok? ==> LoadResults(disk.results) == Ok(r.value.1)
    ensures LoadCheckpoint(disk.checkpoint, commits).Ok? && LoadResults(disk.results).Ok? ==> r.Ok?
  {
    match LoadCheckpoint(disk.checkpoint, commits)
    case Err(e) => Err(e)
    case Ok(start) =>
      match LoadResults(disk.results)
      case Err(e) => Err(e)
      case Ok(results) => Ok((start, results))
  }

  /** `fresh_start`: index 0 and an empty accumulator, which is what
      `Resume` gives on a disk holding neither file. */
  function FreshStart(commits: seq<Hash>): (r: (nat, AllResults))
    ensures r.0 == 0 && forall h :: EntryOf(r.1, h) == NoEntry
    ensures Resume(Disk(Missing, Missing), commits) == Ok(r)
  {
    (0, NewAllResults())
  }

  /** A completed save loads back as the value saved: the results file
      gives the results, and the checkpoint file of `commits[k]` gives `k`
      when no revision is listed twice. */
  lemma SaveLoadRoundTrip(disk: Disk, results: AllResults, commits: seq<Hash>, k: nat, discipline: SaveDiscipline)
    requires Distinct(commits) && k < |commits|
    ensures LoadResults(Save(disk.results, results, Lands, discipline)) == Ok(results)
    ensures LoadCheckpoint(Save(disk.checkpoint, commits[k], Lands, discipline), commits) == Ok(k)
  {
    Checkpoint.ResumesAtCheckpointedRevision(commits, k);
  }
}
