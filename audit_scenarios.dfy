/** Whole audit reports on concrete working directories. */
module AuditScenarios {
  import opened Wrappers
  import opened Json
  import opened Audit
  import opened GitCheck
  import opened Jsonc
  import opened DevContainerCheck
  import opened AuditMain

  /**
   * A directory that is neither a repository nor configured for a dev
   * container: both checks fail, the two hints come Git first, and the
   * report ends with two items and exit code 1.
   */
  lemma BareDirectory(info: GitInfo, read: string -> Option<string>, parse: string -> Option<Value>)
    requires !IsRepo(info)
    ensures RunAudit(info, [], read, parse) ==
            Finished([false, false], [GitRepoHint, ConfigureDevContainerHint], "2" + ACTIONABLE_ITEMS, 1)
  {
    NotARepository(info);
    NoConfigurationFile(read, parse);
    HintsOfSingle(SubCheck(REPOSITORY, Some(GitRepoHint), Str(NOT_A_REPOSITORY), Fail));
    HintsOfSingle(NO_CONFIGURATION);
    ReportedHints(GitSubchecks(info), [NO_CONFIGURATION]);
    TwoItems([GitRepoHint, ConfigureDevContainerHint]);
  }

  lemma TwoItems(hints: seq<Hint>)
    requires |hints| == 2
    ensures Summary(hints) == "2" + ACTIONABLE_ITEMS
  {
    assert NatToDecimal(2) == "2";
  }

  /**
   * A clean, pushed repository whose configuration names a base image:
   * nothing is left to do and the report exits with 0.
   */
  lemma CleanProject(info: GitInfo, path: string, read: string -> Option<string>,
                     parse: string -> Option<Value>, image: string)
    requires IsRepo(info) && info.remoteOrigin != ""
    requires info.uncheckedFiles == "" && info.uncommittedChanges == "" && info.unpushedChanges == ""
    requires read(path).Some?
    requires parse(StripTrailingCommas(StripComments(read(path).value))) == Some(Object([Entry("image", Str(image))]))
    requires image != ""
    ensures RunAudit(info, [path], read, parse) ==
            Finished([true, true], [], ALL_GOOD, 0)
  {
    var config := [Entry("image", Str(image))];
    assert GetOr(config, "image") == Str(image);
    assert !HasKey(config, "build");
    assert DockerfileOf(config) == Ok(Null);
    GitCheckPasses(info);
    DevContainerCheckPasses(config);
    OnlyFirstPath([path], read, parse);
    ExitZeroIffBothPass(info, [path], read, parse);
    ReportedHints(GitSubchecks(info), ConfigSubchecks(Object(config)).results);
  }
}
