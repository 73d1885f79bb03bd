/** The driver (`main`, `warm_up`): load the state, warm up on a throwaway
    accumulator, then for each remaining revision save the checkpoint,
    process the revision in memory and save the results. Everything the
    outside world decides (how each build goes, where the process stops)
    is a parameter, so a run is a function of the disk it starts from. */
module Driver {
  import opened Outcomes
  import opened Commits
  import opened Results
  import opened Store

  /** How one iteration goes for the outside world: the fate of the
      checkpoint save, what the external tools deliver, and the fate of the
      results save. A crash between two actions is the `Lost` fate of the
      next save, or a failed build. */
  datatype StepFate = StepFate(checkpointWrite: WriteFate, build: BuildRun, resultsWrite: WriteFate)

  /** The outside world during one run: what the warm-up build delivers and
      how the iteration at each index goes. */
  datatype Env = Env(warmUp: BuildRun, step: nat -> StepFate)

  /** Why the program cannot start. */
  datatype StartupError = LoadFailed(error: LoadError) | EmptyCommitList

  /** How a run ends: every revision processed; stopped (crash or error)
      in the iteration at index `at`; or stopped before the loop. */
  datatype Exit = Finished | Stopped(at: nat) | StartupFailed(error: StartupError)

  datatype RunOutcome = RunOutcome(disk: Disk, exit: Exit)

  /** An iteration that ran to its end: both saves completed and the build
      delivered all six measurements. */
  predicate Completes(f: StepFate) {
    f.checkpointWrite == Lands && f.build.Completed? && f.resultsWrite == Lands
  }

  /** The iteration stopped while saving the checkpoint, and the file kept
      its old content. */
  predicate CheckpointKept(f: StepFate, discipline: SaveDiscipline) {
    f.checkpointWrite == Lost || (f.checkpointWrite == Torn && discipline == ReplaceAtomically)
  }

  /** The iteration stopped part way through writing the checkpoint in a truncating save. */
  predicate TornCheckpoint(f: StepFate, discipline: SaveDiscipline) {
    f.checkpointWrite == Torn && discipline == TruncateThenWrite
  }

  /** The iteration stopped part way through writing the results in a truncating save. */
  predicate TornResults(f: StepFate, discipline: SaveDiscipline) {
    && f.checkpointWrite == Lands && f.build.Completed?
    && f.resultsWrite == Torn && discipline == TruncateThenWrite
  }

  /** The iteration wrote the new results completely, and then the save
      failed while syncing: the file already holds this iteration's
      results although the run stops in it. */
  predicate ResultsUnsynced(f: StepFate) {
    f.checkpointWrite == Lands && f.build.Completed? && f.resultsWrite == Unsynced
  }

  /** `warm_up`: processes the first revision into a fresh accumulator that
      is then dropped; its failure is ignored. The throwaway accumulator
      holds nothing about any other revision. */
  function WarmUp(commits: seq<Hash>, run: BuildRun): (tmp: AllResults)
    requires |commits| > 0
    ensures forall h :: h != commits[0] ==> EntryOf(tmp, h) == NoEntry
  {
    ProcessCommit(NewAllResults(), commits[0], run)
  }

  /** The loop of `main` from index `i`, with `mem` the in-memory results.
      Each iteration saves the checkpoint, processes the revision into
      memory and saves the results; the first save or build that does not
      complete stops the run in that iteration. */
  function Loop(commits: seq<Hash>, i: nat, mem: AllResults, disk: Disk,
                step: nat -> StepFate, discipline: SaveDiscipline): (o: RunOutcome)
    requires i <= |commits|
    ensures o.exit.Finished? || (o.exit.Stopped? && i <= o.exit.at < |commits|)
    decreases |commits| - i
  {
    if i == |commits| then RunOutcome(disk, Finished)
    else
      var hash := commits[i];
      var fate := step(i);
      var disk1 := disk.(checkpoint := Save(disk.checkpoint, hash, fate.checkpointWrite, discipline));
      if fate.checkpointWrite != Lands then RunOutcome(disk1, Stopped(i))
      else
        var mem1 := ProcessCommit(mem, hash, fate.build);
        if fate.build.Failed? then RunOutcome(disk1, Stopped(i))
        else
          var disk2 := disk1.(results := Save(disk1.results, mem1, fate.resultsWrite, discipline));
          if fate.resultsWrite != Lands then RunOutcome(disk2, Stopped(i))
          else Loop(commits, i + 1, mem1, disk2, step, discipline)
  }

  /** `main` after the commit list is loaded: resume, warm up (indexing
      the first revision, so an empty list panics), then loop. A run that
      cannot start writes nothing; one that starts stops, if at all, in an
      iteration of a listed revision at or after the resume index. */
  function Run(disk: Disk, commits: seq<Hash>, env: Env, discipline: SaveDiscipline): (o: RunOutcome)
    ensures Resume(disk, commits).Err? ==>
      o == RunOutcome(disk, StartupFailed(LoadFailed(Resume(disk, commits).error)))
    ensures Resume(disk, commits).Ok? && |commits| == 0 ==> o == RunOutcome(disk, StartupFailed(EmptyCommitList))
    ensures Resume(disk, commits).Ok? && |commits| > 0 ==> !o.exit.StartupFailed?
    ensures o.exit.Stopped? ==> Resume(disk, commits).value.0 <= o.exit.at < |commits|
  {
    match Resume(disk, commits)
    case Err(e) => RunOutcome(disk, StartupFailed(LoadFailed(e)))
    case Ok((start, loaded)) =>
      if |commits| == 0 then RunOutcome(disk, StartupFailed(EmptyCommitList))
      else
        var discarded := WarmUp(commits, env.warmUp);
        Loop(commits, start, loaded, disk, env.step, discipline)
  }

  /** The accumulator after successful processing of `commits[lo..hi]`,
      each revision with the measurements of its own iteration. */
  function Replay(loaded: AllResults, commits: seq<Hash>, lo: nat, hi: nat,
                  step: nat -> StepFate): AllResults
    requires lo <= hi <= |commits|
    decreases hi
  {
    if hi == lo then loaded
    else Record(Replay(loaded, commits, lo, hi - 1, step), commits[hi - 1], step(hi - 1).build.m)
  }

  /** One more iteration of a replay records one more revision. */
  lemma ReplayStep(loaded: AllResults, commits: seq<Hash>, lo: nat, last: nat, hi: nat,
                   step: nat -> StepFate)
    requires lo <= last < |commits| && hi == last + 1
    ensures Replay(loaded, commits, lo, hi, step)
              == Record(Replay(loaded, commits, lo, last, step), commits[last], step(last).build.m)
  {
  }

  /** A replay leaves every revision outside `commits[lo..hi]` as loaded. */
  lemma {:induction false} ReplayLeavesOthers(loaded: AllResults, commits: seq<Hash>, lo: nat, hi: nat,
                                              step: nat -> StepFate, h: Hash)
    requires lo <= hi <= |commits| && h !in commits[lo..hi]
    ensures EntryOf(Replay(loaded, commits, lo, hi, step), h) == EntryOf(loaded, h)
    decreases hi
  {
    if hi > lo {
      var k := hi - 1;
      assert commits[lo..hi] == commits[lo..k] + [commits[k]];
      ReplayLeavesOthers(loaded, commits, lo, k, step, h);
      ReplayStep(loaded, commits, lo, k, hi, step);
    }
  }

  /** With no revision listed twice, a replay records each revision of
      `commits[lo..hi]` exactly once, with the measurements of its own
      iteration. */
  lemma {:induction false} ReplayRecordsEachOnce(loaded: AllResults, commits: seq<Hash>, lo: nat, hi: nat,
                                                 step: nat -> StepFate, k: nat)
    requires lo <= k < hi <= |commits| && Distinct(commits)
    ensures EntryOf(Replay(loaded, commits, lo, hi, step), commits[k])
              == Recorded(EntryOf(loaded, commits[k]), step(k).build.m)
    decreases hi
  {
    var last := hi - 1;
    ReplayStep(loaded, commits, lo, last, hi, step);
    if k < last {
      ReplayRecordsEachOnce(loaded, commits, lo, last, step, k);
      assert commits[k] != commits[last];
    } else {
      assert k == last;
      assert commits[last] !in commits[lo..last] by {
        forall i | lo <= i < last ensures commits[i] != commits[last] {
        }
      }
      ReplayLeavesOthers(loaded, commits, lo, last, step, commits[last]);
    }
  }

  /** Replaying up to `i + 1` records `commits[i]` on top of replaying up to `i`. */
  lemma ReplayNext(loaded: AllResults, commits: seq<Hash>, lo: nat, i: nat, step: nat -> StepFate)
    requires lo <= i < |commits|
    ensures Replay(loaded, commits, lo, i + 1, step)
              == Record(Replay(loaded, commits, lo, i, step), commits[i], step(i).build.m)
  {
  }

  /** The checkpoint file as the loop entered at index `i` leaves it
      before iteration `j`: as found for the first iteration, else naming
      the revision of the iteration before. */
  function CheckpointBefore(commits: seq<Hash>, i: nat, disk: Disk, j: nat): FileState<Hash>
    requires i <= j <= |commits|
  {
    if j == i then disk.checkpoint else Holds(commits[j - 1])
  }

  /** Every iteration from `i` up to `j` ran to its end. */
  predicate AllComplete(step: nat -> StepFate, i: nat, j: nat) {
    forall k :: i <= k < j ==> Completes(step(k))
  }

  lemma AllCompleteExtend(step: nat -> StepFate, i: nat, j: nat)
    requires Completes(step(i)) && AllComplete(step, i + 1, j)
    ensures AllComplete(step, i, j)
  {
    forall k | i < k < j ensures Completes(step(k)) {
      assert i + 1 <= k < j;
    }
  }

  /** An iteration that runs to its end records its revision in memory,
      saves the checkpoint naming it and the results, and the loop goes on
      with the next index. */
  lemma LoopContinues(commits: seq<Hash>, i: nat, mem: AllResults, disk: Disk,
                      step: nat -> StepFate, d: SaveDiscipline) returns (mem': AllResults, disk': Disk)
    requires i < |commits| && Completes(step(i))
    ensures mem' == Record(mem, commits[i], step(i).build.m)
    ensures disk' == Disk(Holds(commits[i]), Holds(mem'))
    ensures Loop(commits, i, mem, disk, step, d) == Loop(commits, i + 1, mem', disk', step, d)
  {
    mem' := Record(mem, commits[i], step(i).build.m);
    disk' := Disk(Holds(commits[i]), Holds(mem'));
  }

  /** An iteration that does not run to its end stops the loop in it. The
      checkpoint file is as its save left it; the results file is as it
      was, unless a truncating save of it was interrupted. */
  lemma LoopStops(commits: seq<Hash>, i: nat, mem: AllResults, disk: Disk,
                  step: nat -> StepFate, d: SaveDiscipline)
    requires i < |commits| && !Completes(step(i))
    ensures Loop(commits, i, mem, disk, step, d).exit == Stopped(i)
    ensures Loop(commits, i, mem, disk, step, d).disk.checkpoint
              == Save(disk.checkpoint, commits[i], step(i).checkpointWrite, d)
    ensures !TornResults(step(i), d) && !ResultsUnsynced(step(i)) ==>
      Loop(commits, i, mem, disk, step, d).disk.results == disk.results
    ensures TornResults(step(i), d) ==> Loop(commits, i, mem, disk, step, d).disk.results == Unreadable
    ensures ResultsUnsynced(step(i)) ==>
      Loop(commits, i, mem, disk, step, d).disk.results == Holds(Record(mem, commits[i], step(i).build.m))
  {
  }

  /** The loop entered at index `i` ends in outcome `o`. Every iteration
      before the one it stops in ran to its end and that one did not; when
      it finishes, every iteration ran to its end. */
  lemma {:induction false} LoopCompletes(commits: seq<Hash>, i: nat, mem: AllResults, disk: Disk,
                                         step: nat -> StepFate, d: SaveDiscipline, o: RunOutcome)
    requires i <= |commits| && o == Loop(commits, i, mem, disk, step, d)
    ensures o.exit.Stopped? ==> AllComplete(step, i, o.exit.at) && !Completes(step(o.exit.at))
    ensures o.exit.Finished? ==> AllComplete(step, i, |commits|)
    decreases |commits| - i
  {
    if i < |commits| {
      if Completes(step(i)) {
        var mem', disk' := LoopContinues(commits, i, mem, disk, step, d);
        LoopCompletes(commits, i + 1, mem', disk', step, d, o);
        if o.exit.Stopped? {
          AllCompleteExtend(step, i, o.exit.at);
        } else {
          AllCompleteExtend(step, i, |commits|);
        }
      } else {
        LoopStops(commits, i, mem, disk, step, d);
      }
    }
  }

  /** The checkpoint file at the end of the loop entered at index `i` with
      checkpoint file as in `disk`. When the loop stops in iteration `j`: a
      save that wrote its content names `commits[j]`; an interrupted one left the file as
      it was before iteration `j`, or (truncating) unreadable. When it
      finishes, the file is as after the last iteration. */
  lemma {:induction false} LoopCheckpoint(commits: seq<Hash>, i: nat, mem: AllResults, disk: Disk,
                                          step: nat -> StepFate, d: SaveDiscipline, o: RunOutcome)
    requires i <= |commits| && o == Loop(commits, i, mem, disk, step, d)
    ensures o.exit.Stopped? && Written(step(o.exit.at).checkpointWrite) ==>
      o.disk.checkpoint == Holds(commits[o.exit.at])
    ensures o.exit.Stopped? && CheckpointKept(step(o.exit.at), d) ==>
      o.disk.checkpoint == CheckpointBefore(commits, i, disk, o.exit.at)
    ensures o.exit.Stopped? && TornCheckpoint(step(o.exit.at), d) ==> o.disk.checkpoint == Unreadable
    ensures o.exit.Finished? ==> o.disk.checkpoint == CheckpointBefore(commits, i, disk, |commits|)
    decreases |commits| - i
  {
    if i < |commits| {
      if Completes(step(i)) {
        var mem', disk' := LoopContinues(commits, i, mem, disk, step, d);
        LoopCheckpoint(commits, i + 1, mem', disk', step, d, o);
        if o.exit.Stopped? && o.exit.at == i + 1 {
          PreviousIndex(commits, i, o.exit.at);
        }
        if o.exit.Finished? && |commits| == i + 1 {
          PreviousIndex(commits, i, |commits|);
        }
      } else {
        LoopStops(commits, i, mem, disk, step, d);
      }
    }
  }

  /** The results file at the end of the loop entered at index `i`, with
      the results of `commits[start..i]` in memory and readable on disk.
      When the loop stops in iteration `j` the file holds the results of
      `commits[start..j]` only, unless a truncating save of it was
      interrupted, which leaves it unreadable, or its save wrote the
      results of iteration `j` too before failing to sync. When it finishes
      the file holds the results of every iteration. */
  lemma {:induction false} LoopResults(commits: seq<Hash>, start: nat, loaded: AllResults, i: nat,
                                       disk: Disk, step: nat -> StepFate, d: SaveDiscipline, o: RunOutcome)
    requires start <= i <= |commits|
    requires LoadResults(disk.results) == Ok(Replay(loaded, commits, start, i, step))
    requires o == Loop(commits, i, Replay(loaded, commits, start, i, step), disk, step, d)
    ensures o.exit.Stopped? && !TornResults(step(o.exit.at), d) && !ResultsUnsynced(step(o.exit.at)) ==>
      LoadResults(o.disk.results) == Ok(Replay(loaded, commits, start, o.exit.at, step))
    ensures o.exit.Stopped? && TornResults(step(o.exit.at), d) ==> o.disk.results == Unreadable
    ensures o.exit.Stopped? && ResultsUnsynced(step(o.exit.at)) ==>
      o.exit.at < |commits| &&
      LoadResults(o.disk.results) == Ok(Replay(loaded, commits, start, o.exit.at + 1, step))
    ensures o.exit.Finished? ==>
      LoadResults(o.disk.results) == Ok(Replay(loaded, commits, start, |commits|, step))
    decreases |commits| - i
  {
    if i < |commits| {
      if Completes(step(i)) {
        var mem', disk' := LoopContinues(commits, i, Replay(loaded, commits, start, i, step), disk, step, d);
        ReplayNext(loaded, commits, start, i, step);
        LoopResults(commits, start, loaded, i + 1, disk', step, d, o);
      } else {
        LoopStops(commits, i, Replay(loaded, commits, start, i, step), disk, step, d);
        ReplayNext(loaded, commits, start, i, step);
      }
    }
  }

  /** The index before `i + 1` is `i`. */
  lemma PreviousIndex(commits: seq<Hash>, i: nat, j: nat)
    requires i < |commits| && j == i + 1
    ensures commits[j - 1] == commits[i]
  {
  }
}
