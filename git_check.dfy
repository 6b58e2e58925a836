/**
 * `GitCheck`: the state of the working directory's Git repository, as the
 * tracker measures it, turned into an ordered list of subchecks.
 */
module GitCheck {
  import opened Wrappers
  import opened Json
  import opened Audit

  /** The measures the check reads, each already decoded to text. */
  datatype GitInfo = GitInfo(
    isRepo: string,
    lastCommitHash: string,
    branch: string,
    branchUpstream: string,
    remoteOrigin: string,
    uncommittedChanges: string,
    unpushedChanges: string,
    uncheckedFiles: string,
    root: string)

  const REPOSITORY := "Repository"
  const REMOTE_ORIGIN := "Remote origin"
  const BRANCH := "Branch"
  const COMMIT := "Commit"
  const UNTRACKED_FILES := "Untracked files"
  const UNCOMMITTED_CHANGES := "Uncommitted changes"
  const UNPUSHED_CHANGES := "Unpushed changes"

  const SUBCHECK_NAMES: seq<string> := [
    REPOSITORY, REMOTE_ORIGIN, BRANCH, COMMIT, UNTRACKED_FILES, UNCOMMITTED_CHANGES, UNPUSHED_CHANGES]

  const NOT_A_REPOSITORY := "Not a git repository"
  const DETACHED := "detached"
  const UNTRACKED_PRESENT := "Some files are not tracked by the repository nor ignored by the .gitignore"
  const UNTRACKED_ABSENT := "All files are tracked by the repository"
  const UNCOMMITTED_PRESENT := "Some changes to tracked files have not been committed"
  const UNCOMMITTED_ABSENT := "No uncommitted changes"
  const UNPUSHED_PRESENT := "Some commits have not been pushed to the remote."
  const UNPUSHED_ABSENT := "Every commit that you have locally is also pushed"

  /** The measure that says whether the directory is a repository is the text `1` when it is. */
  predicate IsRepo(info: GitInfo)
  {
    info.isRepo == "1"
  }

  /** `name or "detached"`. */
  function OrDetached(branch: string): string
  {
    if branch != "" then branch else DETACHED
  }

  const LOCAL_TAG := " (local) -> "
  const REMOTE_TAG := " (remote)"

  /** The local branch, an arrow, and its upstream. */
  function BranchMessage(local: string, upstream: string): string
  {
    OrDetached(local) + LOCAL_TAG + OrDetached(upstream) + REMOTE_TAG
  }

  /** An empty branch name, local or upstream, is shown as `detached`. */
  lemma DetachedBranch(local: string, upstream: string)
    ensures var m := BranchMessage(local, upstream);
            && (local == "" ==> m[..|DETACHED + LOCAL_TAG|] == DETACHED + LOCAL_TAG)
            && (upstream == "" ==> m[|m| - |DETACHED + REMOTE_TAG|..] == DETACHED + REMOTE_TAG)
            && (local != "" ==> m[..|local + LOCAL_TAG|] == local + LOCAL_TAG)
            && (upstream != "" ==> m[|m| - |upstream + REMOTE_TAG|..] == upstream + REMOTE_TAG)
  {
    var m := BranchMessage(local, upstream);
    var head := OrDetached(local) + LOCAL_TAG;
    var tail := OrDetached(upstream) + REMOTE_TAG;
    assert m == head + tail;
    assert m[..|head|] == head;
    assert m[|m| - |tail|..] == tail;
  }

  /** A subcheck that fails when `present`, with one message for either case. */
  function Clean(name: string, hint: Hint, present: bool, whenPresent: string, whenAbsent: string): SubCheck
  {
    SubCheck(name, Some(hint), Str(if present then whenPresent else whenAbsent), if !present then Success else Fail)
  }

  function RepositorySubcheck(info: GitInfo): SubCheck
  {
    SubCheck(REPOSITORY, Some(GitRepoHint),
             Str(if IsRepo(info) then info.root else NOT_A_REPOSITORY),
             if IsRepo(info) then Success else Fail)
  }

  function RemoteSubcheck(info: GitInfo): SubCheck
  {
    SubCheck(REMOTE_ORIGIN, Some(TodoHint), Str(info.remoteOrigin),
             if info.remoteOrigin != "" then Success else Fail)
  }

  function BranchSubcheck(info: GitInfo): SubCheck
  {
    SubCheck(BRANCH, None,
             Str(BranchMessage(info.branch, info.branchUpstream)),
             Success)
  }

  function CommitSubcheck(info: GitInfo): SubCheck
  {
    SubCheck(COMMIT, None, Str(info.lastCommitHash), Success)
  }

  function UntrackedSubcheck(info: GitInfo): SubCheck
  {
    Clean(UNTRACKED_FILES, UncheckedFilesHint, info.uncheckedFiles != "", UNTRACKED_PRESENT, UNTRACKED_ABSENT)
  }

  function UncommittedSubcheck(info: GitInfo): SubCheck
  {
    Clean(UNCOMMITTED_CHANGES, UncommittedChangesHint, info.uncommittedChanges != "",
          UNCOMMITTED_PRESENT, UNCOMMITTED_ABSENT)
  }

  function UnpushedSubcheck(info: GitInfo): SubCheck
  {
    Clean(UNPUSHED_CHANGES, UnpushedChangesHint, info.unpushedChanges != "", UNPUSHED_PRESENT, UNPUSHED_ABSENT)
  }

  /** The subchecks the generator yields, in order; it stops after the first when there is no repository. */
  function GitSubchecks(info: GitInfo): (r: seq<SubCheck>)
    ensures |r| == if IsRepo(info) then |SUBCHECK_NAMES| else 1
    ensures r[0] == RepositorySubcheck(info)
  {
    if !IsRepo(info) then [RepositorySubcheck(info)]
    else
      [ RepositorySubcheck(info), RemoteSubcheck(info), BranchSubcheck(info), CommitSubcheck(info),
        UntrackedSubcheck(info), UncommittedSubcheck(info), UnpushedSubcheck(info) ]
  }

  /** The subchecks come in a fixed order, and only the first when there is no repository. */
  lemma SubcheckOrder(info: GitInfo)
    ensures Names(GitSubchecks(info)) == if IsRepo(info) then SUBCHECK_NAMES else [REPOSITORY]
  {
  }

  /** Outside a repository there is one failing subcheck, with the hint to run `git init`. */
  lemma NotARepository(info: GitInfo)
    requires !IsRepo(info)
    ensures GitSubchecks(info) ==
            [SubCheck(REPOSITORY, Some(GitRepoHint), Str(NOT_A_REPOSITORY), Fail)]
  {
  }

  /**
   * Inside a repository: the root is shown; branch and commit always
   * succeed, with no hint; an empty branch name is shown as `detached`; the
   * remote origin is shown as it is and fails exactly when it is empty; each
   * of the last three fails exactly when its measure is not empty.
   */
  lemma RepositoryOutcomes(info: GitInfo)
    requires IsRepo(info)
    ensures var r := GitSubchecks(info);
            && r[0] == SubCheck(REPOSITORY, Some(GitRepoHint), Str(info.root), Success)
            && r[1].hint == Some(TodoHint) && r[1].message == Str(info.remoteOrigin)
            && r[2].hint == None && r[3].hint == None
            && r[2].result == Success && r[3].result == Success
            && r[3].message == Str(info.lastCommitHash)
            && r[2].message == Str(BranchMessage(info.branch, info.branchUpstream))
            && (r[1].result == Fail <==> info.remoteOrigin == "")
            && (r[4].result == Fail <==> info.uncheckedFiles != "")
            && (r[5].result == Fail <==> info.uncommittedChanges != "")
            && (r[6].result == Fail <==> info.unpushedChanges != "")
  {
    var r := GitSubchecks(info);
    assert r[1] == RemoteSubcheck(info) && r[2] == BranchSubcheck(info) && r[3] == CommitSubcheck(info);
    assert r[4] == UntrackedSubcheck(info) && r[5] == UncommittedSubcheck(info) && r[6] == UnpushedSubcheck(info);
  }

  /**
   * The hint and the text of the last three subchecks: each has its own
   * hint, and shows the first text when its measure is not empty and the
   * second otherwise.
   */
  lemma CleanlinessMessages(info: GitInfo)
    requires IsRepo(info)
    ensures var r := GitSubchecks(info);
            && r[4].hint == Some(UncheckedFilesHint)
            && r[5].hint == Some(UncommittedChangesHint)
            && r[6].hint == Some(UnpushedChangesHint)
            && r[4].message == Str(if info.uncheckedFiles != "" then UNTRACKED_PRESENT else UNTRACKED_ABSENT)
            && r[5].message == Str(if info.uncommittedChanges != "" then UNCOMMITTED_PRESENT else UNCOMMITTED_ABSENT)
            && r[6].message == Str(if info.unpushedChanges != "" then UNPUSHED_PRESENT else UNPUSHED_ABSENT)
  {
    var r := GitSubchecks(info);
    assert r[4] == UntrackedSubcheck(info) && r[5] == UncommittedSubcheck(info) && r[6] == UnpushedSubcheck(info);
  }

  /** Every subcheck that can fail carries a hint. */
  lemma FailuresHaveHints(info: GitInfo)
    ensures var r := GitSubchecks(info);
            forall k :: 0 <= k < |r| && r[k].result == Fail ==> r[k].hint.Some?
  {
    var r := GitSubchecks(info);
    forall k | 0 <= k < |r| && r[k].result == Fail ensures r[k].hint.Some? {
      if k == 0 {
      } else if k == 1 {
        assert r[k] == RemoteSubcheck(info);
      } else if k == 2 || k == 3 {
      } else if k == 4 {
        assert r[k] == UntrackedSubcheck(info);
      } else if k == 5 {
        assert r[k] == UncommittedSubcheck(info);
      } else {
        assert r[k] == UnpushedSubcheck(info);
      }
    }
  }

  /** The check passes exactly in a repository with an origin and nothing untracked, uncommitted or unpushed. */
  lemma GitCheckPasses(info: GitInfo)
    ensures Evaluate(GitSubchecks(info)).success <==>
            && IsRepo(info) && info.remoteOrigin != ""
            && info.uncheckedFiles == "" && info.uncommittedChanges == "" && info.unpushedChanges == ""
  {
    var r := GitSubchecks(info);
    if IsRepo(info) {
      RepositoryOutcomes(info);
      if info.remoteOrigin != "" && info.uncheckedFiles == "" && info.uncommittedChanges == ""
         && info.unpushedChanges == "" {
        forall k | 0 <= k < |r| ensures r[k].result == Success {
        }
      } else if info.remoteOrigin == "" {
        assert r[1].result == Fail;
      } else if info.uncheckedFiles != "" {
        assert r[4].result == Fail;
      } else if info.uncommittedChanges != "" {
        assert r[5].result == Fail;
      } else {
        assert r[6].result == Fail;
      }
    } else {
      assert r[0].result == Fail;
    }
  }
}
