/** What a run that stops part way leaves behind, and what the next run
    makes of it: the crash-safety argument of `main`'s save order
    (checkpoint, then in-memory update, then results). */
module Recovery {
  import opened Outcomes
  import opened Commits
  import opened Results
  import opened Store
  import opened Driver

  /** The stopping iteration interrupted no truncating save. */
  predicate NoTornSave(f: StepFate, d: SaveDiscipline) {
    !TornCheckpoint(f, d) && !TornResults(f, d)
  }

  /** The loop of a run that started. */
  lemma RunLoops(disk: Disk, commits: seq<Hash>, env: Env, d: SaveDiscipline, start: nat, loaded: AllResults)
    requires Resume(disk, commits) == Ok((start, loaded)) && |commits| > 0
    ensures start < |commits|
    ensures LoadResults(disk.results) == Ok(Replay(loaded, commits, start, start, env.step))
    ensures Run(disk, commits, env, d) == Loop(commits, start, Replay(loaded, commits, start, start, env.step), disk, env.step, d)
  {
  }

  /** A run that resumed at `start` with `loaded` and stopped in iteration
      `j`, without interrupting a truncating save: every iteration before
      `j` ran to its end, the results file holds exactly the results of
      those iterations (and of iteration `j` too when its results save
      wrote them and then failed to sync), and a checkpoint save that wrote
      its content names the in-flight revision `commits[j]`. The next run
      starts, and loads those results. */
  lemma CrashRecovery(disk: Disk, commits: seq<Hash>, env: Env, d: SaveDiscipline,
                      start: nat, loaded: AllResults, o: RunOutcome, j: nat)
    requires Resume(disk, commits) == Ok((start, loaded))
    requires o == Run(disk, commits, env, d) && o.exit == Stopped(j)
    requires NoTornSave(env.step(j), d)
    ensures start <= j < |commits|
    ensures AllComplete(env.step, start, j)
    ensures !ResultsUnsynced(env.step(j)) ==>
      LoadResults(o.disk.results) == Ok(Replay(loaded, commits, start, j, env.step))
    ensures ResultsUnsynced(env.step(j)) ==>
      LoadResults(o.disk.results) == Ok(Replay(loaded, commits, start, j + 1, env.step))
    ensures Written(env.step(j).checkpointWrite) ==> o.disk.checkpoint == Holds(commits[j])
    ensures !Written(env.step(j).checkpointWrite) ==> o.disk.checkpoint == CheckpointBefore(commits, start, disk, j)
    ensures Resume(o.disk, commits).Ok?
    ensures !ResultsUnsynced(env.step(j)) ==> Resume(o.disk, commits).value.1 == Replay(loaded, commits, start, j, env.step)
  {
    RunLoops(disk, commits, env, d, start, loaded);
    var mem := Replay(loaded, commits, start, start, env.step);
    LoopCompletes(commits, start, mem, disk, env.step, d, o);
    LoopCheckpoint(commits, start, mem, disk, env.step, d, o);
    LoopResults(commits, start, loaded, start, disk, env.step, d, o);
    RestartLoadsCheckpoint(disk, commits, start, o.disk, j);
  }

  /** The checkpoint file after a stop in iteration `j` still loads: it
      names `commits[j]`, or is as before iteration `j`. */
  lemma RestartLoadsCheckpoint(disk: Disk, commits: seq<Hash>, start: nat, after: Disk, j: nat)
    requires Resume(disk, commits).Ok? && start <= j < |commits|
    requires after.checkpoint == Holds(commits[j]) || after.checkpoint == CheckpointBefore(commits, start, disk, j)
    ensures LoadCheckpoint(after.checkpoint, commits).Ok?
  {
    if after.checkpoint == Holds(commits[j]) {
      assert commits[j] in commits;
    } else if j == start {
      assert after.checkpoint == disk.checkpoint;
    } else {
      LastBeforeListed(commits, j);
    }
  }

  lemma LastBeforeListed(commits: seq<Hash>, j: nat)
    requires 0 < j < |commits|
    ensures commits[j - 1] in commits
  {
  }

  /** With no revision listed twice, the next run after a stop in iteration
      `j` resumes no later than `j` and no earlier than `start`, so no
      revision is skipped; at `j` itself, redoing the in-flight revision,
      when its checkpoint save wrote its content. The results it loads hold
      each earlier iteration exactly once, and nothing of iteration `j`
      unless its results save wrote them before failing to sync. */
  lemma RestartRedoesInFlight(disk: Disk, commits: seq<Hash>, env: Env, d: SaveDiscipline,
                              start: nat, loaded: AllResults, o: RunOutcome, j: nat)
    requires Resume(disk, commits) == Ok((start, loaded)) && Distinct(commits)
    requires o == Run(disk, commits, env, d) && o.exit == Stopped(j)
    requires NoTornSave(env.step(j), d)
    ensures Resume(o.disk, commits).Ok? && start <= Resume(o.disk, commits).value.0 <= j
    ensures Written(env.step(j).checkpointWrite) ==> Resume(o.disk, commits).value.0 == j
    ensures j < |commits|
    ensures !ResultsUnsynced(env.step(j)) ==>
      EntryOf(Resume(o.disk, commits).value.1, commits[j]) == EntryOf(loaded, commits[j])
    ensures forall k :: start <= k < j ==>
      EntryOf(Resume(o.disk, commits).value.1, commits[k]) == Recorded(EntryOf(loaded, commits[k]), env.step(k).build.m)
  {
    CrashRecovery(disk, commits, env, d, start, loaded, o, j);
    PersistedEntries(loaded, commits, start, j, env.step);
    RestartIndex(disk, commits, start, o.disk, j, env.step(j).checkpointWrite);
    if ResultsUnsynced(env.step(j)) {
      UnsyncedEntries(loaded, commits, start, j, env.step);
    }
  }

  /** Recording `commits[j]` on top of the results of `commits[start..j]`
      leaves each earlier revision's entry as it was, no revision being
      listed twice. */
  lemma UnsyncedEntries(loaded: AllResults, commits: seq<Hash>, start: nat, j: nat, step: nat -> StepFate)
    requires Distinct(commits) && start <= j < |commits|
    ensures forall k :: start <= k < j ==>
      EntryOf(Replay(loaded, commits, start, j + 1, step), commits[k])
        == EntryOf(Replay(loaded, commits, start, j, step), commits[k])
  {
    ReplayNext(loaded, commits, start, j, step);
    forall k | start <= k < j
      ensures EntryOf(Replay(loaded, commits, start, j + 1, step), commits[k])
                == EntryOf(Replay(loaded, commits, start, j, step), commits[k])
    {
      assert commits[k] != commits[j];
    }
  }

  /** A stop after the results of iteration `j` were written, when syncing
      them failed, leaves the checkpoint naming `commits[j]` and the results
      holding iteration `j`: the next run processes that revision again, so
      it gains a second sample. */
  lemma UnsyncedResultsRepeatsRevision(disk: Disk, commits: seq<Hash>, env: Env, d: SaveDiscipline,
                                       start: nat, loaded: AllResults, o: RunOutcome, j: nat)
    requires Resume(disk, commits) == Ok((start, loaded)) && Distinct(commits)
    requires o == Run(disk, commits, env, d) && o.exit == Stopped(j) && ResultsUnsynced(env.step(j))
    ensures Resume(o.disk, commits).Ok? && Resume(o.disk, commits).value.0 == j
    ensures EntryOf(Resume(o.disk, commits).value.1, commits[j])
              == Recorded(EntryOf(loaded, commits[j]), env.step(j).build.m)
  {
    CrashRecovery(disk, commits, env, d, start, loaded, o, j);
    RestartIndex(disk, commits, start, o.disk, j, env.step(j).checkpointWrite);
    ResumedWithInFlight(o.disk, commits, loaded, start, j, env.step);
  }

  /** A disk whose results file holds the results of `commits[start..j + 1]`
      gives the next run the entry of `commits[j]` recorded once. */
  lemma ResumedWithInFlight(after: Disk, commits: seq<Hash>, loaded: AllResults, start: nat, j: nat,
                            step: nat -> StepFate)
    requires Distinct(commits) && start <= j < |commits| && Resume(after, commits).Ok?
    requires LoadResults(after.results) == Ok(Replay(loaded, commits, start, j + 1, step))
    ensures EntryOf(Resume(after, commits).value.1, commits[j]) == Recorded(EntryOf(loaded, commits[j]), step(j).build.m)
  {
    ReplayRecordsEachOnce(loaded, commits, start, j + 1, step, j);
  }

  /** The next run's resume index after a stop in iteration `j` that left
      disk `after`, with no revision listed twice: `j` after a checkpoint
      save that wrote its content, else the index the checkpoint had before
      iteration `j`. */
  lemma RestartIndex(disk: Disk, commits: seq<Hash>, start: nat, after: Disk, j: nat, fate: WriteFate)
    requires Resume(disk, commits).Ok? && Resume(disk, commits).value.0 == start && Distinct(commits)
    requires start <= j < |commits| && LoadResults(after.results).Ok?
    requires Written(fate) ==> after.checkpoint == Holds(commits[j])
    requires !Written(fate) ==> after.checkpoint == CheckpointBefore(commits, start, disk, j)
    ensures Resume(after, commits).Ok?
    ensures Written(fate) ==> Resume(after, commits).value.0 == j
    ensures !Written(fate) && j == start ==> Resume(after, commits).value.0 == start
    ensures !Written(fate) && j > start ==> Resume(after, commits).value.0 == j - 1
  {
    if Written(fate) {
      ResumeAtListed(after, commits, j);
    } else if j > start {
      var p := j - 1;
      ResumeAtListed(after, commits, p);
    }
  }

  /** A checkpoint naming `commits[k]`, no revision being listed twice,
      resumes at `k`. */
  lemma ResumeAtListed(disk: Disk, commits: seq<Hash>, k: nat)
    requires Distinct(commits) && k < |commits| && disk.checkpoint == Holds(commits[k])
    requires LoadResults(disk.results).Ok?
    ensures Resume(disk, commits) == Ok((k, LoadResults(disk.results).value))
  {
    assert commits[k] in commits;
  }

  /** The results of `commits[start..j]`, no revision being listed twice,
      hold nothing of `commits[j]` beyond what was loaded, and each revision
      before it recorded once. */
  lemma PersistedEntries(loaded: AllResults, commits: seq<Hash>, start: nat, j: nat, step: nat -> StepFate)
    requires Distinct(commits) && start <= j < |commits|
    ensures EntryOf(Replay(loaded, commits, start, j, step), commits[j]) == EntryOf(loaded, commits[j])
    ensures forall k :: start <= k < j ==>
      EntryOf(Replay(loaded, commits, start, j, step), commits[k]) == Recorded(EntryOf(loaded, commits[k]), step(k).build.m)
  {
    assert commits[j] !in commits[start..j];
    ReplayLeavesOthers(loaded, commits, start, j, step, commits[j]);
    forall k | start <= k < j
      ensures EntryOf(Replay(loaded, commits, start, j, step), commits[k]) == Recorded(EntryOf(loaded, commits[k]), step(k).build.m)
    {
      ReplayRecordsEachOnce(loaded, commits, start, j, step, k);
    }
  }

  /** A stop after the results of iteration `j - 1` were saved and before
      the checkpoint save of iteration `j` took effect leaves the checkpoint
      naming `commits[j - 1]`: the next run processes that revision again
      although its results are already saved, so it gains a second sample. */
  lemma LostCheckpointRepeatsRevision(disk: Disk, commits: seq<Hash>, env: Env, d: SaveDiscipline,
                                      start: nat, loaded: AllResults, o: RunOutcome, j: nat)
    requires Resume(disk, commits) == Ok((start, loaded)) && Distinct(commits)
    requires o == Run(disk, commits, env, d) && o.exit == Stopped(j)
    requires env.step(j).checkpointWrite == Lost && start < j
    ensures Resume(o.disk, commits).Ok? && Resume(o.disk, commits).value.0 == j - 1
    ensures EntryOf(Resume(o.disk, commits).value.1, commits[j - 1])
              == Recorded(EntryOf(loaded, commits[j - 1]), env.step(j - 1).build.m)
  {
    RestartRedoesInFlight(disk, commits, env, d, start, loaded, o, j);
    CrashRecovery(disk, commits, env, d, start, loaded, o, j);
    RestartIndex(disk, commits, start, o.disk, j, env.step(j).checkpointWrite);
  }

  /** With atomic saves a stop anywhere leaves a disk the next run starts
      from, holding exactly the results of the iterations that ran to their
      end, and of the stopping one when its results save wrote them before
      failing to sync. */
  lemma AtomicSaveRecovers(disk: Disk, commits: seq<Hash>, env: Env,
                           start: nat, loaded: AllResults, o: RunOutcome, j: nat)
    requires Resume(disk, commits) == Ok((start, loaded))
    requires o == Run(disk, commits, env, ReplaceAtomically) && o.exit == Stopped(j)
    ensures Resume(o.disk, commits).Ok?
    ensures !ResultsUnsynced(env.step(j)) ==>
      Resume(o.disk, commits).value.1 == Replay(loaded, commits, start, j, env.step)
    ensures ResultsUnsynced(env.step(j)) ==>
      j < |commits| && Resume(o.disk, commits).value.1 == Replay(loaded, commits, start, j + 1, env.step)
  {
    CrashRecovery(disk, commits, env, ReplaceAtomically, start, loaded, o, j);
  }

  /** With the truncating saves of the program, a stop part way through
      writing the results leaves a results file that does not parse, and one
      part way through writing the checkpoint a checkpoint file that does
      not parse: either way the
      next run cannot start, and the results of every earlier revision are
      gone from the disk. */
  lemma TornSaveBlocksRestart(disk: Disk, commits: seq<Hash>, env: Env,
                              start: nat, loaded: AllResults, o: RunOutcome, j: nat)
    requires Resume(disk, commits) == Ok((start, loaded))
    requires o == Run(disk, commits, env, TruncateThenWrite) && o.exit == Stopped(j)
    requires !NoTornSave(env.step(j), TruncateThenWrite)
    ensures o.disk.checkpoint == Unreadable || o.disk.results == Unreadable
    ensures Resume(o.disk, commits).Err?
  {
    RunLoops(disk, commits, env, TruncateThenWrite, start, loaded);
    var mem := Replay(loaded, commits, start, start, env.step);
    LoopCheckpoint(commits, start, mem, disk, env.step, TruncateThenWrite, o);
    LoopResults(commits, start, loaded, start, disk, env.step, TruncateThenWrite, o);
  }

  /** A run that finishes ran every remaining iteration to its end; the
      results file holds their results and the checkpoint names the last
      revision. */
  lemma FinishedRun(disk: Disk, commits: seq<Hash>, env: Env, d: SaveDiscipline,
                    start: nat, loaded: AllResults, o: RunOutcome)
    requires Resume(disk, commits) == Ok((start, loaded))
    requires o == Run(disk, commits, env, d) && o.exit == Finished
    ensures start < |commits| && AllComplete(env.step, start, |commits|)
    ensures LoadResults(o.disk.results) == Ok(Replay(loaded, commits, start, |commits|, env.step))
    ensures o.disk.checkpoint == Holds(commits[|commits| - 1])
  {
    RunLoops(disk, commits, env, d, start, loaded);
    var mem := Replay(loaded, commits, start, start, env.step);
    LoopCompletes(commits, start, mem, disk, env.step, d, o);
    LoopCheckpoint(commits, start, mem, disk, env.step, d, o);
    LoopResults(commits, start, loaded, start, disk, env.step, d, o);
  }

  /** What `RestartAfterFinish` needs of `FinishedRun`. */
  lemma FinishedDisk(disk: Disk, commits: seq<Hash>, env: Env, d: SaveDiscipline,
                     start: nat, loaded: AllResults, o: RunOutcome)
    requires Resume(disk, commits) == Ok((start, loaded))
    requires o == Run(disk, commits, env, d) && o.exit == Finished
    ensures |commits| > 0 && o.disk.checkpoint == Holds(commits[|commits| - 1])
    ensures LoadResults(o.disk.results).Ok?
  {
    FinishedRun(disk, commits, env, d, start, loaded, o);
  }

  /** After a finished run, with no revision listed twice, a further run
      starts and resumes at the last revision, redoing it only. */
  lemma RestartAfterFinish(disk: Disk, commits: seq<Hash>, env: Env, d: SaveDiscipline,
                           start: nat, loaded: AllResults, o: RunOutcome)
    requires Resume(disk, commits) == Ok((start, loaded)) && Distinct(commits)
    requires o == Run(disk, commits, env, d) && o.exit == Finished
    ensures Resume(o.disk, commits).Ok? && Resume(o.disk, commits).value.0 == |commits| - 1
  {
    FinishedDisk(disk, commits, env, d, start, loaded, o);
    ResumeAtListed(o.disk, commits, |commits| - 1);
  }

  /** The warm-up build, whatever it delivers, changes nothing a run leaves
      behind. */
  lemma WarmUpIsolation(disk: Disk, commits: seq<Hash>, env: Env, d: SaveDiscipline, warmUp: BuildRun)
    ensures Run(disk, commits, env.(warmUp := warmUp), d) == Run(disk, commits, env, d)
  {
  }

  /** A run stops in the first iteration that does not run to its end. */
  lemma RunStopsAtFirstIncomplete(disk: Disk, commits: seq<Hash>, env: Env, d: SaveDiscipline,
                                  start: nat, loaded: AllResults, o: RunOutcome, j: nat)
    requires Resume(disk, commits) == Ok((start, loaded))
    requires o == Run(disk, commits, env, d)
    requires start <= j < |commits| && AllComplete(env.step, start, j) && !Completes(env.step(j))
    ensures o.exit == Stopped(j)
  {
    RunLoops(disk, commits, env, d, start, loaded);
    LoopCompletes(commits, start, Replay(loaded, commits, start, start, env.step), disk, env.step, d, o);
  }

  /** A run in which every remaining iteration runs to its end finishes. */
  lemma RunFinishesWhenAllComplete(disk: Disk, commits: seq<Hash>, env: Env, d: SaveDiscipline,
                                   start: nat, loaded: AllResults, o: RunOutcome)
    requires Resume(disk, commits) == Ok((start, loaded)) && |commits| > 0
    requires o == Run(disk, commits, env, d) && AllComplete(env.step, start, |commits|)
    ensures o.exit == Finished
  {
    RunLoops(disk, commits, env, d, start, loaded);
    LoopCompletes(commits, start, Replay(loaded, commits, start, start, env.step), disk, env.step, d, o);
  }
}
