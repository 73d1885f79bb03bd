/** Resolution of the resume index from the stored checkpoint, the index
    logic of `load_checkpoint`. */
module Checkpoint {
  import opened Outcomes
  import opened Commits

  /** The first index holding `hash`, the index `Iterator::position` finds. */
  function Position(commits: seq<Hash>, hash: Hash): (p: Option<nat>)
    ensures p.Some? ==> p.value < |commits| && commits[p.value] == hash
    ensures p.Some? ==> forall i :: 0 <= i < p.value ==> commits[i] != hash
    ensures p.None? <==> hash !in commits
  {
    if |commits| == 0 then None
    else if commits[0] == hash then Some(0)
    else
      match Position(commits[1..], hash)
      case None => None
      case Some(i) => Some(i + 1)
  }

  /** The stored checkpoint names a revision that is not in the list, the
      panic "Tried to load progress from non-existent commit.". */
  datatype ResumeError = NonExistentCommit(hash: Hash)

  /** Where the loop resumes: at the start of the list when there is no
      checkpoint, otherwise at the first occurrence of the checkpointed
      revision itself, so that revision is processed again. */
  function ResumeIndex(checkpoint: Option<Hash>, commits: seq<Hash>): (r: Result<nat, ResumeError>)
    ensures checkpoint.None? ==> r == Ok(0)
    ensures checkpoint.Some? && checkpoint.value !in commits ==>
      r == Err(NonExistentCommit(checkpoint.value))
    ensures checkpoint.Some? && checkpoint.value in commits ==>
      && r.Ok? && r.value < |commits| && commits[r.value] == checkpoint.value
      && forall i :: 0 <= i < r.value ==> commits[i] != checkpoint.value
  {
    match checkpoint
    case None => Ok(0)
    case Some(hash) =>
      match Position(commits, hash)
      case None => Err(NonExistentCommit(hash))
      case Some(i) => Ok(i)
  }

  /** With no revision listed twice, a checkpoint of `commits[k]` resumes at
      `k` itself, not at `k + 1`. */
  lemma ResumesAtCheckpointedRevision(commits: seq<Hash>, k: nat)
    requires Distinct(commits) && k < |commits|
    ensures ResumeIndex(Some(commits[k]), commits) == Ok(k)
  {
    assert commits[k] in commits;
  }
}
