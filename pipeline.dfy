/**
 * `reproduce_command`: load the manifest, fetch the code, write the
 * Dockerfile, build and run the image. Every stage either lets the next one
 * run or ends the whole run with its own exit code (or an exception nothing
 * catches); the command returns 0 only when all four got through.
 */
module Pipeline {
  import opened Wrappers
  import opened Json
  import opened Manifest
  import opened Exits
  import opened Source
  import opened Container

  /**
   * Everything a run did: the stages it entered, the clone attempts, the
   * Dockerfile it wrote, the `docker` invocations, and how it ended.
   */
  datatype Report = Report(
    stages: seq<Stage>,
    attempts: seq<Attempt>,
    dockerfile: Option<Dockerfile>,
    dockerCalls: seq<seq<string>>,
    end: Termination)

  const STAGES: seq<Stage> := [Loading, Downloading, Configuring, Running]

  /**
   * `parsed` is what the YAML loader made of the manifest (`None` for a
   * syntax error), `directory` the temporary working directory, `git` and
   * `docker` the outcomes of the external tools.
   */
  function Reproduce(parsed: Option<Value>, directory: string, git: GitOracle, docker: seq<string> -> int): Report
  {
    match parsed
    case None => Report(STAGES[..1], [], None, [], Exited(1))
    case Some(data) =>
      var download := DownloadCode(data, git);
      if download.step.Stop? then Report(STAGES[..2], download.attempts, None, [], download.step.end)
      else
        var configure := ConfigureDockerContainer(data);
        if configure.step.Stop? then Report(STAGES[..3], download.attempts, None, [], configure.step.end)
        else
          var run := RunExperiment(data, directory, docker, NETWORK_ACCESS);
          Report(STAGES, download.attempts, configure.dockerfile, run.calls,
                 if run.step.Stop? then run.step.end else Returned(0))
  }

  /** The command as the source runs it, one stage after the other. */
  method ReproduceCommand(parsed: Option<Value>, directory: string, git: GitOracle, docker: seq<string> -> int)
    returns (report: Report)
    ensures report == Reproduce(parsed, directory, git, docker)
  {
    if parsed.None? {
      return Report(STAGES[..1], [], None, [], Exited(1));
    }
    var data := parsed.value;
    var attempts, step := DownloadStage(data, git);
    if step.Stop? {
      return Report(STAGES[..2], attempts, None, [], step.end);
    }
    var configure := ConfigureDockerContainer(data);
    if configure.step.Stop? {
      return Report(STAGES[..3], attempts, None, [], configure.step.end);
    }
    var calls, runStep := RunStage(data, directory, docker, NETWORK_ACCESS);
    if runStep.Stop? {
      return Report(STAGES, attempts, configure.dockerfile, calls, runStep.end);
    }
    return Report(STAGES, attempts, configure.dockerfile, calls, Returned(0));
  }

  // ---- How a run ends ----

  /**
   * The stages run in their fixed order and a run that stops skips all the
   * later ones; only a run that entered the run stage wrote a Dockerfile or
   * called `docker`, and only one whose clone checked out got that far.
   */
  lemma StagesInOrder(parsed: Option<Value>, directory: string, git: GitOracle, docker: seq<string> -> int)
    ensures var r := Reproduce(parsed, directory, git, docker);
            && 1 <= |r.stages| <= |STAGES| && r.stages == STAGES[..|r.stages|]
            && (r.dockerfile.Some? <==> |r.stages| == |STAGES|)
            && (r.dockerCalls != [] ==> r.dockerfile.Some?)
            && (|r.stages| >= 3 ==> Succeeded(r.attempts))
  {
  }

  /** Exit code 1 without an exception: exactly when the manifest is not valid YAML. */
  lemma ExitOneIffUnparsable(parsed: Option<Value>, directory: string, git: GitOracle, docker: seq<string> -> int)
    ensures Reproduce(parsed, directory, git, docker).end == Exited(1) <==> parsed.None?
  {
  }

  /** Exit code 2: exactly when the locator or the commit cannot be looked up; nothing is cloned. */
  lemma ExitTwoIffNoSource(data: Value, directory: string, git: GitOracle, docker: seq<string> -> int)
    ensures var r := Reproduce(Some(data), directory, git, docker);
            && (r.end == Exited(2) <==>
                Lookup(data, REPOSITORY_PATH).Failed? || Lookup(data, COMMIT_PATH).Failed?)
            && (r.end == Exited(2) ==> r.attempts == [])
  {
  }

  /**
   * Exit code 3: exactly when both are strings and no candidate clones and
   * checks out; every candidate was tried then.
   */
  lemma ExitThreeIffCloneFails(data: Value, directory: string, git: GitOracle, docker: seq<string> -> int)
    ensures var r := Reproduce(Some(data), directory, git, docker);
            && (r.end == Exited(3) <==>
                && Lookup(data, REPOSITORY_PATH).Found? && Lookup(data, REPOSITORY_PATH).value.Str?
                && Lookup(data, COMMIT_PATH).Found? && Lookup(data, COMMIT_PATH).value.Str?
                && !Succeeded(r.attempts))
            && (r.end == Exited(3) ==>
                |r.attempts| == |Candidates(Lookup(data, REPOSITORY_PATH).value.s)|)
  {
    var download := DownloadCode(data, git);
    if Lookup(data, REPOSITORY_PATH).Found? && Lookup(data, COMMIT_PATH).Found?
       && Lookup(data, REPOSITORY_PATH).value.Str? && Lookup(data, COMMIT_PATH).value.Str? {
      CloneLoopOrder(git, Candidates(Lookup(data, REPOSITORY_PATH).value.s),
                     Lookup(data, COMMIT_PATH).value.s, Empty);
    }
  }

  /**
   * Exit code 4: exactly when the code was fetched and the manifest has no
   * command to run; no Dockerfile is written and `docker` is never called.
   */
  lemma ExitFourIffNoCommand(data: Value, directory: string, git: GitOracle, docker: seq<string> -> int)
    ensures var r := Reproduce(Some(data), directory, git, docker);
            && (r.end == Exited(4) <==>
                DownloadCode(data, git).step == Proceed && Lookup(data, CMD_PATH).Failed?)
            && (r.end == Exited(4) ==> r.dockerfile == None && r.dockerCalls == [])
  {
  }

  /**
   * The command returns 0 exactly when the code checked out, the command is
   * a list of strings and both `docker` invocations exit with 0; the run
   * then wrote the Dockerfile for that command and called `docker` exactly
   * twice.
   */
  lemma ReturnsZeroIffAllStagesPass(data: Value, directory: string, git: GitOracle, docker: seq<string> -> int)
    ensures var r := Reproduce(Some(data), directory, git, docker);
            && (r.end == Returned(0) <==>
                && DownloadCode(data, git).step == Proceed
                && Lookup(data, CMD_PATH).Found? && IsArgv(Lookup(data, CMD_PATH).value)
                && docker(BuildArgv(directory)) == 0
                && docker(["docker", "--rm", "repro-experiment"]) == 0)
            && (r.end == Returned(0) ==>
                && r.dockerfile == Some(RenderDockerfile(Lookup(data, CMD_PATH).value))
                && r.dockerCalls == [BuildArgv(directory), ["docker", "--rm", "repro-experiment"]])
  {
    assert RunArgv(["--rm"]) == ["docker", "--rm", "repro-experiment"];
  }

  /**
   * The uncaught exceptions a run can raise: a failed type assertion in the
   * download or the run stage, or a failed `docker` invocation. The
   * undefined name of the network switch and a "not a mapping" error past
   * the run stage's narrow `except` are never reached.
   */
  lemma RaisedErrors(parsed: Option<Value>, directory: string, git: GitOracle, docker: seq<string> -> int)
    ensures var r := Reproduce(parsed, directory, git, docker);
            r.end.Raised? ==>
              || r.end.error == AssertionFailed(Downloading)
              || r.end.error == AssertionFailed(Running)
              || (r.end.error.ProcessFailed? && r.end.error.argv in r.dockerCalls && r.end.error.status != 0)
  {
  }

  /**
   * A command that is present but not a list of strings gets through the
   * configure stage, which writes it into the Dockerfile, and only then
   * fails its assertion, before `docker` is called.
   */
  lemma NonArgvCommandWritesDockerfile(data: Value, directory: string, git: GitOracle, docker: seq<string> -> int)
    requires DownloadCode(data, git).step == Proceed
    requires Lookup(data, CMD_PATH).Found? && !IsArgv(Lookup(data, CMD_PATH).value)
    ensures var r := Reproduce(Some(data), directory, git, docker);
            && r.dockerfile == Some(RenderDockerfile(Lookup(data, CMD_PATH).value))
            && r.dockerCalls == []
            && r.end == Raised(AssertionFailed(Running))
  {
  }

  /** The process exit status is 0 exactly when the command returned 0. */
  lemma StatusZeroIffReturned(parsed: Option<Value>, directory: string, git: GitOracle, docker: seq<string> -> int)
    ensures var r := Reproduce(parsed, directory, git, docker);
            ExitStatus(r.end) == 0 <==> r.end == Returned(0)
  {
  }

  /**
   * The process status is 1 exactly when the manifest is not valid YAML or
   * an exception escaped: the status alone does not tell a syntax error
   * from a failed assertion or a failed `docker` invocation.
   */
  lemma StatusOneIffUnparsableOrRaised(parsed: Option<Value>, directory: string, git: GitOracle,
                                       docker: seq<string> -> int)
    ensures var r := Reproduce(parsed, directory, git, docker);
            ExitStatus(r.end) == 1 <==> parsed.None? || r.end.Raised?
  {
  }
}
