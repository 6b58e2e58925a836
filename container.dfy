/**
 * The container the experiment runs in: the Dockerfile rendered from a fixed
 * template and the recorded command, and the two `docker` invocations that
 * build and run it. The container engine is an oracle from an argument list
 * to an exit status.
 */
module Container {
  import opened Wrappers
  import opened Json
  import opened Manifest
  import opened Exits
  import JsonDecode

  const CMD_PATH: seq<string> := ["implementation", "executable", "cmd"]

  const IMAGE := "mcr.microsoft.com/devcontainers/python:2-3.14-trixie"

  /** The pinned base layer, with the extra steps the experiment needs. */
  const BASEFILE :=
    "FROM --platform=linux/amd64 mcr.microsoft.com/devcontainers/python:2-3.14-trixie\n"
    + "\n"
    + "# Need for docker-in-docker\n"
    + "RUN <<EOF\n"
    + "# The one inside the image seems to be deprecated\n"
    + "curl -fsSL https://dl.yarnpkg.com/debian/pubkey.gpg | gpg --dearmor | sudo tee /usr/share/keyrings/yarn-archive-keyring.gpg > /dev/null\n"
    + "EOF\n"
    + "\n"
    + "RUN apt-get update && apt-get install -y openjdk-21-jdk"

  const POST_CREATE_COMMAND := "pip3 install --user -r requirements.txt"

  /** `basefile or f"FROM {image}"`. */
  function BaseLayer(): (r: string)
    ensures r == BASEFILE
  {
    if BASEFILE != "" then BASEFILE else "FROM " + IMAGE
  }

  /** The template with its three fields filled in, in the order they appear. */
  function FillTemplate(basefile: string, postCreateCommand: string, command: string): string
  {
    "\n" + basefile + "\n\nWORKDIR /app\n\nCOPY . .\nRUN " + postCreateCommand + "\n\nCMD " + command + "\n"
  }

  /** The template up to its `CMD` instruction. */
  function TemplateHead(basefile: string, postCreateCommand: string): string
  {
    "\n" + basefile + "\n\nWORKDIR /app\n\nCOPY . .\nRUN " + postCreateCommand + "\n\n"
  }

  /** Everything of the Dockerfile before the `CMD` instruction: the same for every manifest. */
  function Header(): string
  {
    TemplateHead(BASEFILE, POST_CREATE_COMMAND)
  }

  /** The command is the last line of the filled template, after `CMD `. */
  lemma CommandIsLastLine(basefile: string, postCreateCommand: string, command: string)
    ensures FillTemplate(basefile, postCreateCommand, command) ==
            TemplateHead(basefile, postCreateCommand) + "CMD " + command + "\n"
  {
  }

  /**
   * A Dockerfile the configure stage writes: the template filled with the
   * JSON text of the recorded command. Only the command varies.
   */
  datatype Dockerfile = Dockerfile(command: string)
  {
    /** The text written to the file. */
    function Text(): string
    {
      FillTemplate(BaseLayer(), POST_CREATE_COMMAND, command)
    }
  }

  /** The Dockerfile for the recorded command `cmd`. */
  function RenderDockerfile(cmd: Value): Dockerfile
  {
    Dockerfile(Dumps(cmd))
  }

  /**
   * For a recorded argument list, the Dockerfile is the fixed header, then
   * `CMD ` and the exec form of the list on the last line; a container
   * engine reading that exec form gets the same arguments back, with their
   * boundaries intact.
   */
  lemma DockerfileExecForm(argv: seq<string>)
    ensures RenderDockerfile(ArgvValue(argv)).Text() == Header() + "CMD " + Dumps(ArgvValue(argv)) + "\n"
    ensures JsonDecode.DecodeArgv(Dumps(ArgvValue(argv))) == Some(argv)
  {
    CommandIsLastLine(BaseLayer(), POST_CREATE_COMMAND, Dumps(ArgvValue(argv)));
    JsonDecode.DumpsArgvRoundTrip(argv);
  }

  /** What the configure stage did: the Dockerfile it wrote, if any, and whether the pipeline goes on. */
  datatype Configure = Configure(dockerfile: Option<Dockerfile>, step: Step)

  /**
   * No existing configuration is looked for (there is none yet). A missing
   * `implementation.executable.cmd` exits with 4 and nothing is written;
   * otherwise the Dockerfile is written and the pipeline goes on.
   */
  function ConfigureDockerContainer(data: Value): (r: Configure)
    ensures r.step.Stop? <==> Lookup(data, CMD_PATH).Failed?
    ensures r.step.Stop? ==> r.dockerfile == None && r.step.end == Exited(4)
    ensures r.step.Proceed? ==> r.dockerfile == Some(RenderDockerfile(Lookup(data, CMD_PATH).value))
  {
    match Lookup(data, CMD_PATH)
    case Failed(_) => Configure(None, Stop(Exited(4)))
    case Found(cmd) => Configure(Some(RenderDockerfile(cmd)), Proceed)
  }

  const IMAGE_TAG := "repro-experiment"

  /** The run stage hard-wires network access on. */
  const NETWORK_ACCESS := true

  /** `docker build -t repro-experiment <directory>`. */
  function BuildArgv(directory: string): seq<string>
  {
    ["docker", "build", "-t", IMAGE_TAG, directory]
  }

  /**
   * The options of the run invocation: `--rm`, and the network switch when
   * network access is off. That branch names a list that does not exist,
   * so it raises a `NameError` instead.
   */
  function RunOptions(networkAccess: bool): Option<seq<string>>
  {
    if networkAccess then Some(["--rm"]) else None
  }

  /** `docker <options> repro-experiment`: the `run` subcommand is not part of it. */
  function RunArgv(options: seq<string>): seq<string>
  {
    ["docker"] + options + [IMAGE_TAG]
  }

  /** What the run stage did: the `docker` invocations it made, and how it ended. */
  datatype RunReport = RunReport(calls: seq<seq<string>>, step: Step)

  /**
   * Read the command again (only a missing key is caught, with exit 4), assert
   * that it is a list of strings, build the image, then run it; a non-zero
   * status of either invocation raises.
   */
  function RunExperiment(data: Value, directory: string, docker: seq<string> -> int, networkAccess: bool): RunReport
  {
    match Lookup(data, CMD_PATH)
    case Failed(e) =>
      if e.MissingKey? then RunReport([], Stop(Exited(4)))
      else RunReport([], Stop(Raised(LookupEscaped(e.path))))
    case Found(cmd) =>
      if !IsArgv(cmd) then RunReport([], Stop(Raised(AssertionFailed(Running))))
      else
        var build := BuildArgv(directory);
        if docker(build) != 0 then RunReport([build], Stop(Raised(ProcessFailed(build, docker(build)))))
        else match RunOptions(networkAccess)
          case None => RunReport([build], Stop(Raised(NameError("docker_cmd"))))
          case Some(options) =>
            var run := RunArgv(options);
            if docker(run) != 0 then RunReport([build, run], Stop(Raised(ProcessFailed(run, docker(run)))))
            else RunReport([build, run], Proceed)
  }

  /** The stage as the source runs it, with `docker_args` built as a list. */
  method RunStage(data: Value, directory: string, docker: seq<string> -> int, networkAccess: bool)
    returns (calls: seq<seq<string>>, step: Step)
    ensures RunReport(calls, step) == RunExperiment(data, directory, docker, networkAccess)
  {
    var cmd := GetNested(data, CMD_PATH);
    if cmd.Failed? {
      if cmd.error.MissingKey? {
        return [], Stop(Exited(4));
      }
      return [], Stop(Raised(LookupEscaped(cmd.error.path)));
    }
    if !IsArgv(cmd.value) {
      return [], Stop(Raised(AssertionFailed(Running)));
    }
    var build := ["docker", "build", "-t", IMAGE_TAG, directory];
    calls := [build];
    var status := docker(build);
    if status != 0 {
      return calls, Stop(Raised(ProcessFailed(build, status)));
    }
    var dockerArgs := ["--rm"];
    if !networkAccess {
      return calls, Stop(Raised(NameError("docker_cmd")));
    }
    var run := ["docker"] + dockerArgs + [IMAGE_TAG];
    calls := calls + [run];
    status := docker(run);
    if status != 0 {
      return calls, Stop(Raised(ProcessFailed(run, status)));
    }
    return calls, Proceed;
  }

  /**
   * With network access on, a command that is a list of strings and a
   * container engine that succeeds, the stage makes exactly the two
   * invocations `docker build -t repro-experiment <dir>` and
   * `docker --rm repro-experiment`, in that order; `--network none` never
   * appears.
   */
  lemma RunInvocations(data: Value, directory: string, docker: seq<string> -> int)
    requires Lookup(data, CMD_PATH).Found? && IsArgv(Lookup(data, CMD_PATH).value)
    requires forall argv :: docker(argv) == 0
    ensures RunExperiment(data, directory, docker, true) ==
            RunReport([["docker", "build", "-t", "repro-experiment", directory],
                       ["docker", "--rm", "repro-experiment"]], Proceed)
  {
    assert RunArgv(["--rm"]) == ["docker", "--rm", "repro-experiment"];
  }
}
