# compile-stats-rav1e, modelled in Dafny

The program benchmarks the build of rav1e across a long list of git
revisions. For every revision it records four build times (full and
partial builds, under the debug and release profiles) and two binary sizes.
A run can stop at any moment, through a crash, a failed build or a failed
write. To survive that, the program keeps two files:

- `commit_checkpoint.json` names the revision whose processing was started.
- `results.json` holds every measurement saved so far.

On start the program resumes at the checkpointed revision itself, so that
revision is processed again.

This project models the part of `src/main.rs` that makes that argument
work. Everything the outside world decides is a parameter of the model:
how each build goes, and where a save or the process stops.

- `outcomes.dfy` holds `Option` and `Result`.
- `commits.dfy` (module `Commits`) covers revision identifiers and the
  splitting of the listing script's output into the revision list
  (`create_commit_list`).
- `results.dfy` (module `Results`) covers the results accumulator
  (`AllResults`, `ProfileResults`, `new`, `insert`) and the in-memory effect
  of `process_commit`. A failed build keeps the recordings made before the
  failing stage.
- `checkpoint.dfy` (module `Checkpoint`) computes the resume index from the
  checkpoint (the index logic of `load_checkpoint`).
- `store.dfy` (module `Store`) models the two files as they can be found on
  disk (missing, unreadable, or holding a value). It also covers saving
  with its possible interruptions, `load_checkpoint`, `load_results`,
  `resume` and `fresh_start`.
- `driver.dfy` (module `Driver`) models `main` and `warm_up` as a function
  from the starting disk and the outside world to the final disk and the
  way the run ended. Each iteration of `main`'s loop does three things in
  order: it saves the checkpoint, processes the revision in memory, and
  saves the results. The first save or build that does not complete stops
  the run in that iteration.
- `recovery.dfy` (module `Recovery`) holds the crash-safety theorems: what
  a stopped run leaves behind, and where the next run resumes.
- `scenarios.dfy` (module `Scenarios`) holds concrete runs. One is the
  three-revision end-to-end run: c1 and c2 succeed, the build of c3 fails,
  and a restart completes c3. The other pair shows an interrupted results
  save under both save disciplines.

Durations are whole nanoseconds (`nat`), as a Rust `Duration` is. Sizes
are `u64` values.

The program's file saves truncate the file and then write it. The model
also defines an atomic replace (write a new file, rename it over the old
one). The code itself shows that saves are meant to survive a stop: each
save ends with `sync_all` (src/main.rs:55, 127), and the checkpoint and
`resume` exist only to restart after one. A truncating save defeats that;
see "## Findings".

A save can end four ways in the model: it completes; it fails before the
file is touched; it stops part way through writing; or it writes the whole
content and then `sync_all` fails. In the last case the file already holds
the new content although the run stops in that iteration.

Some behaviours of the code that a reader might not expect, all modelled
as written:

- A build command that exits non-zero does not fail `process_commit`.
  `Command::output()?` fails only when the process cannot be spawned. A
  stage therefore fails only when a command cannot be started or a binary's
  metadata cannot be read.
- A failed `process_commit` may already have recorded samples in memory:
  the debug ones, and also the release full and partial build times when
  it fails reading the release binary's size. They never reach the disk,
  because `save_results` is skipped.
- A checkpoint naming an unlisted revision is a panic (`expect`), not an
  error value. Both end the process with failure. The model reports it as
  `UnknownCheckpoint`.
- Two windows make the next run process a revision whose results are
  already saved, so it gains a second sample. One is a stop after the
  results of one revision are saved and before the checkpoint of the next
  is written. The other is a results save that wrote its content and then
  failed to sync.

## Model

| member | source | states |
|---|---|---|
| Commits.CreateCommitList | src/main.rs:207-215 | the list is the pieces of the script output between line feeds, last piece first, with empty pieces dropped; every listed revision is a non-empty string without a line feed |
| Commits.ListingRoundTrip | src/main.rs:211-213 | output that lists revisions one per line, each ended by a line feed, yields exactly those revisions in reverse order |
| Commits.JoinPieces | src/main.rs:211 | the pieces of the output between line feeds, in order, put back together with line feeds between them, give the output back, so splitting loses nothing |
| Commits.PiecesOfJoin | src/main.rs:211 | splitting a join of line-free strings at line feeds gives those strings back, in order |
| Commits.NonEmptyAppend | src/main.rs:211 | the filter on empty pieces distributes over concatenation, which is how the loop builds the list one piece at a time |
| Results.NewAllResults | src/main.rs:164-178 | a new accumulator holds no entry for any revision under either profile |
| Results.Insert | src/main.rs:148-150 | the samples of the hash become its old samples, or none, followed by the new duration; every other hash keeps its samples |
| Results.RecordSteps | src/main.rs:93-117 | the first n recordings of `process_commit`, in the program's order (debug full, debug partial, debug size, release full, release partial, release size), append to each duration sequence and overwrite each size once its recording is reached; other revisions are untouched |
| Results.Record | src/main.rs:93-119 | a successful `process_commit` appends exactly one sample to each of the four duration sequences of the revision and sets both sizes, leaving every other revision's entry as it was |
| Results.ProcessCommit | src/main.rs:78-120 | a completed run records all six measurements; a failed one never reaches the release size, leaves the accumulator unchanged when it fails before the first build, and never touches another revision |
| Results.RecordedBefore | src/main.rs:84-117 | a failing stage is preceded by exactly the recordings that come before it in `process_commit`; the stash, checkout and patch stages by none |
| Results.SameEntriesSameResults | src/main.rs:152-162 | two accumulators that agree on every revision's entry are equal, so the per-revision contracts of the recordings determine the whole accumulator |
| Results.RecordTwice | src/main.rs:95-104 | recording a revision twice keeps both duration samples, in order, and only the second size |
| Checkpoint.Position | src/main.rs:67-70 | the found index holds the hash and no earlier index does; there is no index exactly when the hash is not listed |
| Checkpoint.ResumeIndex | src/main.rs:59-76 | no checkpoint resumes at 0; a listed checkpoint resumes at its first occurrence, itself and not the index after it; an unlisted one is an error, never 0 |
| Checkpoint.ResumesAtCheckpointedRevision | src/main.rs:67-71 | with no revision listed twice, a checkpoint of the revision at index k resumes at k |
| Store.Save | src/main.rs:50-57 | a save that wrote its content holds the value, even when `sync_all` then failed; one that never touched the file keeps the old content; only a truncating save torn mid-write makes a readable file unreadable; an atomic save leaves the old or the new content |
| Store.LoadCheckpoint | src/main.rs:59-76 | a missing file gives index 0; an unparsable one is an error; a file naming an unlisted revision is an error; a file naming a listed revision loads, at an index holding that revision with no earlier index holding it |
| Store.LoadResults | src/main.rs:131-143 | a missing file gives an empty accumulator, an unparsable one an error, otherwise the results saved |
| Store.Resume | src/main.rs:46-48 | it succeeds exactly when both files load, giving the checkpoint's index and the loaded results; with no checkpoint file the index is 0, whatever a parsable results file holds; an unlisted or corrupt checkpoint and corrupt results are errors |
| Store.FreshStart | src/main.rs:42-44 | index 0 and an accumulator with no entries, which is also what resuming from a disk with neither file gives |
| Store.SaveLoadRoundTrip | src/main.rs:50-76 | a completed results save loads back as the results saved, and a completed checkpoint save of the revision at index k loads back as k when no revision is listed twice |
| Driver.WarmUp | src/main.rs:36-40 | the throwaway accumulator holds nothing about any revision but the first |
| Driver.Loop | src/main.rs:20-31 | the loop either finishes or stops in an iteration at or after the index it was entered at |
| Driver.Run | src/main.rs:12-31 | a run whose files do not load writes nothing and fails with the load error; an empty list that resumes fails with nothing written; a run that starts stops, if at all, at or after the resume index |
| Driver.ReplayLeavesOthers | src/main.rs:20-31 | processing a stretch of the list leaves every revision outside it as loaded |
| Driver.ReplayRecordsEachOnce | src/main.rs:20-31 | with no revision listed twice, processing a stretch of the list records each of its revisions exactly once, with the measurements of its own iteration |
| Driver.LoopCompletes | src/main.rs:20-31 | every iteration before the one the loop stops in ran to its end and that one did not; a finished loop ran every iteration to its end |
| Driver.LoopCheckpoint | src/main.rs:28 | a stopped loop whose checkpoint save wrote its content, synced or not, names the in-flight revision; a save that never touched the file keeps the previous checkpoint; a torn truncating save leaves it unreadable; a finished loop names the last revision |
| Driver.LoopResults | src/main.rs:29-30 | the results file of a stopped loop holds exactly the results of the iterations before the one it stopped in; it also holds that iteration's results when its save wrote them and then failed to sync, and is unreadable when a truncating save of it was torn; a finished loop's file holds the results of every iteration |
| Recovery.CrashRecovery | src/main.rs:14-31 | after a stop in iteration j with no torn save, every earlier iteration ran to its end; the results file holds exactly their results, plus iteration j's only when its results save wrote them before failing to sync; a checkpoint save that wrote its content names the in-flight revision; the next run starts with those results |
| Recovery.RestartRedoesInFlight | src/main.rs:14-31 | with no revision listed twice, the next run resumes between the previous resume index and j, at j itself when the checkpoint save wrote its content, so no revision is skipped; each earlier revision is recorded once, and the in-flight revision's entry is as loaded unless its results were written before a failed sync |
| Recovery.RestartIndex | src/main.rs:46-48 | after a stop in iteration j, the next run resumes at j when its checkpoint save wrote its content, otherwise at the index the checkpoint held before |
| Recovery.PersistedEntries | src/main.rs:28-30 | the saved results hold nothing of the in-flight revision beyond what was loaded, and each earlier revision of the run recorded once |
| Recovery.LostCheckpointRepeatsRevision | src/main.rs:28-30 | a stop before the checkpoint save of iteration j takes effect resumes at j - 1, whose results are already saved, so that revision gains a second sample |
| Recovery.UnsyncedResultsRepeatsRevision | src/main.rs:30 | a results save of iteration j that wrote its content and then failed to sync leaves the checkpoint naming the in-flight revision and the results already holding it, so the next run resumes at j and that revision gains a second sample |
| Recovery.AtomicSaveRecovers | src/main.rs:28-30 | with atomic saves, every stop leaves a disk the next run starts from, holding exactly the results of the iterations that ran to their end, and of the stopping one when its results were written before a failed sync |
| Recovery.TornSaveBlocksRestart | src/main.rs:122-129 | with the program's truncating saves, a stop part way through writing either file leaves a file that does not parse, and the next run cannot start |
| Recovery.FinishedRun | src/main.rs:20-33 | a finished run ran every remaining iteration to its end; the results file holds their results and the checkpoint names the last revision |
| Recovery.RestartAfterFinish | src/main.rs:14 | a run started after a finished one, with no revision listed twice, resumes at the last revision and redoes only that |
| Recovery.WarmUpIsolation | src/main.rs:18 | what the warm-up build delivers changes nothing a run leaves behind |
| Recovery.RunStopsAtFirstIncomplete | src/main.rs:28-30 | a run stops in the first iteration that does not run to its end |
| Recovery.RunFinishesWhenAllComplete | src/main.rs:20-33 | a run in which every remaining iteration runs to its end finishes |
| Scenarios.FirstRun | src/main.rs:12-31 | from no files, with c1 and c2 succeeding and the build of c3 failing, the run stops at c3, the checkpoint names c3, and a restart resumes at index 2 |
| Scenarios.FirstRunResults | src/main.rs:28-30 | that first run saves one recording each of c1 and c2 and nothing of c3 |
| Scenarios.SecondRun | src/main.rs:12-31 | a restart at c3 that succeeds finishes, leaves c1 and c2 as loaded, and records c3 once |
| Scenarios.EndToEnd | src/main.rs:12-31 | after both runs every revision holds exactly one sample per duration sequence, the ones of the run that completed it |
| Scenarios.RecordedFresh | src/main.rs:148-150 | recording a revision with no samples gives exactly one sample in each duration sequence and both sizes, the "one recording each" of the scenarios |
| Scenarios.TornResultsSaveExample | src/main.rs:122-129 | with two revisions and the results save of c2 interrupted mid-write, the results file does not parse and the restart fails |
| Scenarios.AtomicResultsSaveExample | src/main.rs:28-30 | the same interruption with an atomic save resumes at c2 with c1's recording intact |

## Left out

- Process spawning is left out: the `bash`, `git`, `patch_commit.sh`, `list_commits.sh` and `cargo` invocations. Each build is an outcome chosen by the environment, either six measurements or a failure at a named stage.
- Timing with `Instant` is left out. Durations are inputs.
- Binary sizes read with `std::fs::metadata` are inputs. A metadata failure is a failure at that stage.
- JSON (de)serialisation is the identity. A file that was written completely loads as the value written. A torn file is `Unreadable`.
- `load_commit_file` and `update_commit_file` are left out. They only read or write `CommitList.json`. The list is a parameter of a run, and its construction is `Commits.CreateCommitList`.
- File system calls are not modelled one by one. Each maps to one of the fates of `Store.Save`:
  - a failing serialisation or `File::create` never touches the file (`Lost`);
  - a failing or interrupted `write_all` tears it (`Torn`);
  - a failing or interrupted `sync_all` comes after the whole content was written (`Unsynced`).
  A failing read of an existing file counts as an unreadable file.
- What a power loss does to data that was written but not yet synced is left out. An `Unsynced` save is taken to hold its content, as it does after a process stop. A power loss that leaves a partial file is the `Torn` fate.
- The progress `println!` output is left out.
- The UTF-8 check of the script output is left out: `Commits.CreateCommitList` takes text.
- A process stopped during the warm-up is not a separate case. It has written nothing, so it is the same as a run that never started. The warm-up build itself completes or fails.
- Concurrency is left out: the program is single-threaded.

## Findings

| source | as written | input that shows it | evidently intended | confidence | as-written member | corrected member |
|---|---|---|---|---|---|---|
| src/main.rs:122-129 | `save_results` (and `save_checkpoint`, src/main.rs:50-57) truncate the file with `File::create` before `write_all`, so a stop between the two leaves an empty or partial file | revisions c1, c2; c1 completes; in c2's iteration the checkpoint save and the build complete and the process stops part way through writing `results.json`: it no longer parses, c1's saved results are gone, and every restart fails with a parse error | each save replaces the file atomically, so an interrupted save leaves the previous content and a restart resumes with every result saved so far | medium; not executed | Recovery.TornSaveBlocksRestart | Recovery.AtomicSaveRecovers |
