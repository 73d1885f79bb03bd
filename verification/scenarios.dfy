/** Concrete runs. An end-to-end restart: revisions c1, c2, c3, no files
    at first; the first run completes c1 and
    c2 and fails on c3, the second run resumes at c3 and finishes. And a
    stop inside the results save of the second of two revisions, under
    each save discipline. */
module Scenarios {
  import opened Outcomes
  import opened Commits
  import opened Results
  import opened Store
  import opened Driver
  import opened Recovery

  const Revisions: seq<Hash> := ["c1", "c2", "c3"]

  lemma RevisionsDistinct()
    ensures |Revisions| == 3 && Distinct(Revisions)
  {
    assert Revisions[0][1] == '1' && Revisions[1][1] == '2' && Revisions[2][1] == '3';
  }

  lemma FirstTwoComplete(step: nat -> StepFate)
    requires Completes(step(0)) && Completes(step(1))
    ensures AllComplete(step, 0, 2)
  {
    forall k | 0 <= k < 2 ensures Completes(step(k)) {
      if k == 1 {
        assert Completes(step(1));
      }
    }
  }

  lemma LastComplete(step: nat -> StepFate)
    requires Completes(step(2))
    ensures AllComplete(step, 2, 3)
  {
    forall k | 2 <= k < 3 ensures Completes(step(k)) {
      assert k == 2;
    }
  }

  /** The first run, from no files, in which the builds of c1 and c2
      complete and the build of c3 fails after its checkpoint was saved:
      it stops on c3 with the checkpoint naming c3, and the next run
      resumes at index 2, c3. */
  lemma FirstRun(env: Env, d: SaveDiscipline, o: RunOutcome)
    requires Completes(env.step(0)) && Completes(env.step(1))
    requires env.step(2).checkpointWrite == Lands && env.step(2).build.Failed?
    requires o == Run(Disk(Missing, Missing), Revisions, env, d)
    ensures o.exit == Stopped(2) && o.disk.checkpoint == Holds("c3")
    ensures Resume(o.disk, Revisions).Ok? && Resume(o.disk, Revisions).value.0 == 2
  {
    RevisionsDistinct();
    var initial := FreshStart(Revisions);
    FirstTwoComplete(env.step);
    RunStopsAtFirstIncomplete(Disk(Missing, Missing), Revisions, env, d, 0, initial.1, o, 2);
    RestartRedoesInFlight(Disk(Missing, Missing), Revisions, env, d, 0, initial.1, o, 2);
    CrashRecovery(Disk(Missing, Missing), Revisions, env, d, 0, initial.1, o, 2);
  }

  /** What the first run leaves in the results file: one recording each of
      c1 and c2, nothing of c3. */
  lemma FirstRunResults(env: Env, d: SaveDiscipline, o: RunOutcome)
    requires Completes(env.step(0)) && Completes(env.step(1))
    requires env.step(2).checkpointWrite == Lands && env.step(2).build.Failed?
    requires o == Run(Disk(Missing, Missing), Revisions, env, d)
    ensures Resume(o.disk, Revisions).Ok?
    ensures EntryOf(Resume(o.disk, Revisions).value.1, "c1") == Recorded(NoEntry, env.step(0).build.m)
    ensures EntryOf(Resume(o.disk, Revisions).value.1, "c2") == Recorded(NoEntry, env.step(1).build.m)
    ensures EntryOf(Resume(o.disk, Revisions).value.1, "c3") == NoEntry
  {
    FirstRun(env, d, o);
    RevisionsDistinct();
    var initial := FreshStart(Revisions);
    RestartRedoesInFlight(Disk(Missing, Missing), Revisions, env, d, 0, initial.1, o, 2);
    assert Revisions[0] == "c1" && Revisions[1] == "c2" && Revisions[2] == "c3";
  }

  /** The second run, from a disk that resumes at c3 with nothing of c3,
      in which the build of c3 completes: it finishes with the checkpoint
      naming c3, c1 and c2 as loaded, and c3 with one recording of this run. */
  lemma SecondRun(disk: Disk, loaded: AllResults, env: Env, d: SaveDiscipline, o: RunOutcome)
    requires Resume(disk, Revisions) == Ok((2, loaded)) && EntryOf(loaded, "c3") == NoEntry
    requires Completes(env.step(2))
    requires o == Run(disk, Revisions, env, d)
    ensures o.exit == Finished && o.disk.checkpoint == Holds("c3")
    ensures LoadResults(o.disk.results).Ok?
    ensures EntryOf(LoadResults(o.disk.results).value, "c1") == EntryOf(loaded, "c1")
    ensures EntryOf(LoadResults(o.disk.results).value, "c2") == EntryOf(loaded, "c2")
    ensures EntryOf(LoadResults(o.disk.results).value, "c3") == Recorded(NoEntry, env.step(2).build.m)
  {
    RevisionsDistinct();
    LastComplete(env.step);
    RunFinishesWhenAllComplete(disk, Revisions, env, d, 2, loaded, o);
    FinishedRun(disk, Revisions, env, d, 2, loaded, o);
    LastRevisionEntries(loaded, env.step);
  }

  /** Replaying the last revision records c3 and leaves c1 and c2 alone. */
  lemma LastRevisionEntries(loaded: AllResults, step: nat -> StepFate)
    ensures |Revisions| == 3
    ensures EntryOf(Replay(loaded, Revisions, 2, 3, step), "c1") == EntryOf(loaded, "c1")
    ensures EntryOf(Replay(loaded, Revisions, 2, 3, step), "c2") == EntryOf(loaded, "c2")
    ensures EntryOf(Replay(loaded, Revisions, 2, 3, step), "c3") == Recorded(EntryOf(loaded, "c3"), step(2).build.m)
  {
    RevisionsDistinct();
    assert Revisions[2..3] == ["c3"];
    ReplayRecordsEachOnce(loaded, Revisions, 2, 3, step, 2);
    ReplayLeavesOthers(loaded, Revisions, 2, 3, step, "c1");
    ReplayLeavesOthers(loaded, Revisions, 2, 3, step, "c2");
  }

  /** Both runs together: after the second run every revision has exactly
      one recording, c1 and c2 from the first run and c3 from the second. */
  lemma EndToEnd(env1: Env, env2: Env, d: SaveDiscipline, first: RunOutcome, second: RunOutcome)
    requires Completes(env1.step(0)) && Completes(env1.step(1))
    requires env1.step(2).checkpointWrite == Lands && env1.step(2).build.Failed?
    requires Completes(env2.step(2))
    requires first == Run(Disk(Missing, Missing), Revisions, env1, d)
    requires second == Run(first.disk, Revisions, env2, d)
    ensures first.exit == Stopped(2) && second.exit == Finished
    ensures LoadResults(second.disk.results).Ok?
    ensures EntryOf(LoadResults(second.disk.results).value, "c1") == Recorded(NoEntry, env1.step(0).build.m)
    ensures EntryOf(LoadResults(second.disk.results).value, "c2") == Recorded(NoEntry, env1.step(1).build.m)
    ensures EntryOf(LoadResults(second.disk.results).value, "c3") == Recorded(NoEntry, env2.step(2).build.m)
  {
    FirstRun(env1, d, first);
    FirstRunResults(env1, d, first);
    var loaded := Resume(first.disk, Revisions).value.1;
    SecondRun(first.disk, loaded, env2, d, second);
  }

  /** A recording into an empty entry gives one sample per duration sequence. */
  lemma RecordedFresh(m: Measurements)
    ensures Recorded(NoEntry, m) == Entry(
      Some([m.debugFull]), Some([m.debugPartial]), Some(m.debugSize),
      Some([m.releaseFull]), Some([m.releasePartial]), Some(m.releaseSize))
  {
    assert SamplesIn(None) == [];
    assert forall d: Duration :: [] + [d] == [d];
  }

  const TwoRevisions: seq<Hash> := ["c1", "c2"]

  /** c1 runs to its end; in the iteration of c2 the checkpoint save and
      the build complete and the process stops part way through writing the results. */
  predicate StopsInsideSecondResultsSave(env: Env) {
    && Completes(env.step(0))
    && env.step(1).checkpointWrite == Lands && env.step(1).build.Completed?
    && env.step(1).resultsWrite == Torn
  }

  /** With the program's truncating save, that stop leaves a results file
      that does not parse: the recording of c1 is lost and the next run
      fails at startup. */
  lemma TornResultsSaveExample(env: Env, o: RunOutcome)
    requires StopsInsideSecondResultsSave(env)
    requires o == Run(Disk(Missing, Missing), TwoRevisions, env, TruncateThenWrite)
    ensures o.exit == Stopped(1) && o.disk.results == Unreadable
    ensures Resume(o.disk, TwoRevisions) == Err(CorruptResults)
  {
    var initial := FreshStart(TwoRevisions);
    FirstComplete(env.step);
    RunStopsAtFirstIncomplete(Disk(Missing, Missing), TwoRevisions, env, TruncateThenWrite, 0, initial.1, o, 1);
    TornSaveBlocksRestart(Disk(Missing, Missing), TwoRevisions, env, 0, initial.1, o, 1);
    RunLoops(Disk(Missing, Missing), TwoRevisions, env, TruncateThenWrite, 0, initial.1);
    LoopCheckpoint(TwoRevisions, 0, Replay(initial.1, TwoRevisions, 0, 0, env.step), Disk(Missing, Missing),
                   env.step, TruncateThenWrite, o);
    LoopResults(TwoRevisions, 0, initial.1, 0, Disk(Missing, Missing), env.step, TruncateThenWrite, o);
    assert TwoRevisions[1] in TwoRevisions;
  }

  /** With an atomic save, the same stop leaves the results file as the
      iteration of c1 saved it: the next run resumes at c2 with the
      recording of c1. */
  lemma AtomicResultsSaveExample(env: Env, o: RunOutcome)
    requires StopsInsideSecondResultsSave(env)
    requires o == Run(Disk(Missing, Missing), TwoRevisions, env, ReplaceAtomically)
    ensures o.exit == Stopped(1)
    ensures Resume(o.disk, TwoRevisions).Ok? && Resume(o.disk, TwoRevisions).value.0 == 1
    ensures EntryOf(Resume(o.disk, TwoRevisions).value.1, "c1") == Recorded(NoEntry, env.step(0).build.m)
  {
    var initial := FreshStart(TwoRevisions);
    FirstComplete(env.step);
    assert TwoRevisions[0][1] == '1' && TwoRevisions[1][1] == '2';
    assert Distinct(TwoRevisions);
    RunStopsAtFirstIncomplete(Disk(Missing, Missing), TwoRevisions, env, ReplaceAtomically, 0, initial.1, o, 1);
    RestartRedoesInFlight(Disk(Missing, Missing), TwoRevisions, env, ReplaceAtomically, 0, initial.1, o, 1);
    assert TwoRevisions[0] == "c1";
  }

  lemma FirstComplete(step: nat -> StepFate)
    requires Completes(step(0))
    ensures AllComplete(step, 0, 1)
  {
    forall k | 0 <= k < 1 ensures Completes(step(k)) {
      assert k == 0;
    }
  }
}
