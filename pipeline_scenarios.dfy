/** Whole runs of the reproduction pipeline on concrete manifests. */
module PipelineScenarios {
  import opened Wrappers
  import opened Json
  import opened Manifest
  import opened Exits
  import opened Source
  import opened Container
  import opened Pipeline

  /** A manifest with a locator, a commit and, optionally, a command. */
  function ManifestOf(repository: string, commit: string, cmd: Option<Value>): Value
  {
    var source := Object([Entry("repository", Str(repository)), Entry("commit", Str(commit))]);
    var executable := if cmd.Some? then [Entry("executable", Object([Entry("cmd", cmd.value)]))] else [];
    Object([Entry("implementation", Object([Entry("source", source)] + executable))])
  }

  lemma ManifestLookups(repository: string, commit: string, cmd: Option<Value>)
    ensures Lookup(ManifestOf(repository, commit, cmd), REPOSITORY_PATH) == Found(Str(repository))
    ensures Lookup(ManifestOf(repository, commit, cmd), COMMIT_PATH) == Found(Str(commit))
    ensures cmd.Some? ==> Lookup(ManifestOf(repository, commit, cmd), CMD_PATH) == Found(cmd.value)
    ensures cmd.None? ==> Lookup(ManifestOf(repository, commit, cmd), CMD_PATH).Failed?
  {
    var d := ManifestOf(repository, commit, cmd);
    var implementation := d.entries[0].value;
    var source := implementation.entries[0].value;
    LookupStep(d, [], "implementation", d);
    LookupStep(d, ["implementation"], "source", implementation);
    LookupStep(d, ["implementation", "source"], "repository", source);
    LookupStep(d, ["implementation", "source"], "commit", source);
    assert Get(source.entries, "commit") == Some(Str(commit));
    LookupStep(d, ["implementation"], "executable", implementation);
    if cmd.Some? {
      var executable := implementation.entries[1].value;
      LookupStep(d, ["implementation", "executable"], "cmd", executable);
    } else {
      assert !HasKey(implementation.entries, "executable");
    }
  }

  /**
   * An SCP-style locator whose SSH clone is refused, with an HTTPS clone
   * that works: the second candidate is cloned into the still empty
   * directory, and the run goes through to `docker`.
   */
  lemma HttpsFallbackReached(user: string, host: string, path: string, commit: string,
                             directory: string, git: GitOracle, docker: seq<string> -> int)
    requires ScpShaped(user, host, path, "")
    requires !git.clone(user + "@" + host + ":" + path, Empty)
    requires git.clone("https://" + host + "/" + path, Empty)
    requires git.checkout("https://" + host + "/" + path, commit)
    requires forall argv :: docker(argv) == 0
    ensures var r := Reproduce(Some(ManifestOf(user + "@" + host + ":" + path, commit,
                                               Some(ArgvValue(["python3", "main.py"])))),
                               directory, git, docker);
            && |r.attempts| == 2
            && r.attempts[1] == Attempt("https://" + host + "/" + path, Empty, true, true)
            && r.end == Returned(0)
  {
    var locator := user + "@" + host + ":" + path;
    var https := "https://" + host + "/" + path;
    var cmd := ArgvValue(["python3", "main.py"]);
    ManifestLookups(locator, commit, Some(cmd));
    CandidatesOfScp(user, host, path);
    var a := Try(git, locator, commit, Empty);
    var b := Try(git, https, commit, Empty);
    assert [locator, https][1..] == [https];
    assert CloneLoop(git, [https], commit, Empty) == [b];
    assert CloneLoop(git, [locator, https], commit, Empty) == [a, b];
    ReturnsZeroIffAllStagesPass(ManifestOf(locator, commit, Some(cmd)), directory, git, docker);
  }

  /**
   * A manifest without `implementation.executable`: the code is fetched,
   * then the run ends with exit code 4 before any Dockerfile is written.
   */
  lemma MissingCommandExitsFour(repository: string, commit: string,
                                directory: string, git: GitOracle, docker: seq<string> -> int)
    requires forall url, dir :: git.clone(url, dir)
    requires forall url, c :: git.checkout(url, c)
    ensures var r := Reproduce(Some(ManifestOf(repository, commit, None)), directory, git, docker);
            && r.attempts == [Attempt(repository, Empty, true, true)]
            && r.end == Exited(4) && r.dockerfile == None && r.dockerCalls == []
  {
    ManifestLookups(repository, commit, None);
    var candidates := Candidates(repository);
    assert CloneLoop(git, candidates, commit, Empty) == [Attempt(repository, Empty, true, true)];
  }
}
