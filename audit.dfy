/**
 * The audit framework of `repro-check.py`: a check is a list of subchecks,
 * each with a name, an optional hint (a title and a Markdown text), the
 * value it shows, and an outcome; the check passes when every subcheck did.
 */
module Audit {
  import opened Wrappers
  import opened Json

  /** `Result`, an `IntEnum` whose members are numbered from 1. */
  datatype Result = Success | Fail

  function ResultValue(r: Result): int
  {
    match r
    case Success => 1
    case Fail => 2
  }

  /**
   * The hints the checks attach to their subchecks. Each is a constant pair
   * of a title and a Markdown text; `TodoHint` is the placeholder of the
   * subchecks whose advice is still to be written.
   */
  datatype Hint =
    | TodoHint
    | GitRepoHint
    | UncheckedFilesHint
    | UncommittedChangesHint
    | UnpushedChangesHint
    | ConfigureDevContainerHint

  function Title(h: Hint): string
  {
    match h
    case TodoHint => "TODO"
    case GitRepoHint => "Use Git"
    case UncheckedFilesHint => "Add or ignore all files"
    case UncommittedChangesHint => "Commit all changes"
    case UnpushedChangesHint => "Push all your changes"
    case ConfigureDevContainerHint => "Configure and use a dev container"
  }

  function Text(h: Hint): string
  {
    match h
    case TodoHint => "<TODO: hint>"
    case GitRepoHint => "Run `git init` from your code's directory to initialize a git repository."
    case UncheckedFilesHint =>
      "Some of your files are not tracked by the repository. You can list these files using `git status`. If  one of "
      + "those files should not be committed (e.g., because it is created by the program and should not be checked in into "
      + "the repository), then add it to your `.gitignore` file."
    case UncommittedChangesHint =>
      "Some of your files contain changes that are not yet committed. You can list these files using `git status`, add "
      + "them by running `git add <file>` for each file, and then `git commit -m \"your description of the commit\"`."
    case UnpushedChangesHint =>
      "Some of the changes you committed are not yet pushed to the remote. To resolve this, run `git push`."
    case ConfigureDevContainerHint =>
      "For VSCode follow: [underline]https://code.visualstudio.com/docs/devcontainers/create-dev-container[/underline]\n"
      + "For PyCharm: [underline]https://www.jetbrains.com/help/pycharm/connect-to-devcontainer.html[/underline]\n"
      + "General information: [underline]https://containers.dev/[/underline]"
  }

  /**
   * Each hint stands for its (title, text) pair; no two hints share a title,
   * so distinct hints are distinct pairs.
   */
  lemma HintsDistinctByTitle(a: Hint, b: Hint)
    ensures Title(a) == Title(b) <==> a == b
  {
  }

  /** One subcheck: its name, its hint (`None` where none is needed), the value shown, its outcome. */
  datatype SubCheck = SubCheck(name: string, hint: Option<Hint>, message: Value, result: Result)

  /** What calling a check gives: the subchecks in the order they were generated, and a flag. */
  datatype CheckResult = CheckResult(results: seq<SubCheck>, success: bool)

  /** The names of the subchecks, in order. */
  function Names(r: seq<SubCheck>): seq<string>
  {
    seq(|r|, k requires 0 <= k < |r| => r[k].name)
  }

  /** `all(result == Result.SUCCESS for ...)`: true of an empty list. */
  function AllSucceed(results: seq<SubCheck>): (b: bool)
    ensures b <==> forall k :: 0 <= k < |results| ==> results[k].result == Success
  {
    results == [] || (results[0].result == Success && AllSucceed(results[1..]))
  }

  /** `Check.__call__`: the generated subchecks, unchanged, and whether all succeeded. */
  function Evaluate(results: seq<SubCheck>): (r: CheckResult)
    ensures r.results == results
    ensures r.success <==> forall k :: 0 <= k < |results| ==> results[k].result == Success
  {
    CheckResult(results, AllSucceed(results))
  }

  /** An empty list of subchecks counts as a success. */
  lemma EmptyCheckSucceeds()
    ensures Evaluate([]).success
  {
  }

  /**
   * The flag is a `bool`, and the report compares it with `Result.SUCCESS`;
   * that works because `True` equals 1, the value of `SUCCESS`.
   */
  function BoolValue(b: bool): int
  {
    if b then 1 else 0
  }

  predicate ShownAsPass(c: CheckResult)
  {
    BoolValue(c.success) == ResultValue(Success)
  }

  /** A check is reported as passed exactly when every one of its subchecks succeeded. */
  lemma PassIffAllSucceed(results: seq<SubCheck>)
    ensures ShownAsPass(Evaluate(results)) <==> forall k :: 0 <= k < |results| ==> results[k].result == Success
  {
  }
}
