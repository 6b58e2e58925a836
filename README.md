# tira-repro-demo, modelled in Dafny

The repository has two command-line tools.

- `repro.py` reproduces an experiment from its metadata manifest. It runs
  four stages in order, and each stage either lets the next one run or ends
  the whole run with a code of its own:
  1. Load the YAML manifest. A syntax error exits with 1.
  2. Fetch the code. The repository locator and the commit are read from the
     manifest by a nested-key lookup; a lookup error exits with 2. The
     candidate URLs are derived from the locator: the locator itself, plus an
     HTTPS fallback for an SCP-style `user@host:path`. Each candidate is
     cloned and checked out in turn; exhausting them exits with 3.
  3. Write a Dockerfile from a fixed template. Its `CMD` line holds the
     recorded command, serialised by `json.dumps`. A missing command exits
     with 4.
  4. Build and run the image with `docker`.

  The command returns 0 when no stage stopped it.
- `repro-check.py` audits a working directory. Its checks are Git and the
  dev container configuration, run in that order. Each check is a list of
  subchecks; each subcheck carries a name, an optional hint, the value it
  shows, and an outcome. A check passes when every subcheck succeeded. The
  report then gathers the hint of every subcheck that did not succeed. It
  exits with 0 when there are none and with 1 otherwise.

The model works on explicit inputs. These are the parsed manifest, the
measures of the Git tracker, and the list of configuration files. Cloning,
checking out, running `docker`, reading a file and loading JSON are
function-typed parameters (oracles).

Modules:

- `Json`: the values a loader produces. Also Python truthiness, `dict`
  access, and `json.dumps` with `ensure_ascii`.
- `JsonDecode`: a decoder of JSON string arrays. It is the partner of
  `json.dumps` on argument lists.
- `Text`: `join` and `split`.
- `Manifest`: the nested-key lookup and its error messages.
- `Source`: the locator pattern, the candidate list and the clone loop.
- `Container`: the Dockerfile template and the `docker` invocations.
- `Exits`: how a stage or a run ends.
- `Pipeline`: `reproduce_command`.
- `Audit`: results, hints and `Check.__call__`.
- `GitCheck`, `Jsonc` and `DevContainerCheck`: the two checks and the
  JSONC pre-processing.
- `AuditMain`: hint collection and the exit code of `main`.
- `Scenarios`, `PipelineScenarios` and `AuditScenarios`: concrete inputs
  worked through the model.

Where the code carries out a loop, the model has a method with a loop. The
method is proved equal to the function that specifies it. This applies to:

- the lookup, `Manifest.GetNested`;
- the candidate loop, `Source.TryCandidates`;
- the report's nested loops, `AuditMain.CollectHints`.

The stages and the two entry points are methods whose statements follow
the source, without loops. Each is proved equal to its specification
function too: `Source.DownloadStage`, `Container.RunStage`,
`Pipeline.ReproduceCommand` and `AuditMain.AuditCommand`.

Behaviour of the code that is easy to miss:

- The audit can raise. An unreadable configuration, text that `json.loads`
  rejects, or `.get` on a value that is not a mapping all end the report
  (`AuditMain.AuditRun.Aborted`).
- A failing `docker` invocation has no exit code of its own. The
  `CalledProcessError` escapes, and the interpreter exits with 1.
- The comment rewrite does not stop at lines that start with `//`. It cuts
  from any `//` to the end of its line, including inside string values.

The code also has defects, which the model reproduces as they are:

- `docker_cmd` is an undefined name in the branch that would add
  `--network none`. That branch is unreachable because network access is
  hard-wired on.
- The run invocation lacks the `run` subcommand.
- Nothing cleans the clone directory between candidates.
- Only `KeyError` is caught when the run stage reads the command.
- The type assertions on the locator and the commit are not caught.

## Model

| member | source | states |
|---|---|---|
| Manifest.Lookup | repro.py:88-97 | An empty path gives the input itself. A "not a mapping" error names a prefix of the path shorter than the path. A missing-key error names a non-empty prefix of the path. |
| Manifest.GetNested | repro.py:88-97 | The loop that reassigns `out` returns exactly the lookup's result. |
| Manifest.LookupIsReference | repro.py:89-96 | The front-to-back walk equals the definition by prefixes. A path of present keys through mappings gives the stored value, and the first failing step decides the error. |
| Manifest.LookupStep | repro.py:90-96 | One more key after a successful lookup has three outcomes. A non-mapping gives `NotAMapping(keys)`. An absent key gives `MissingKey(keys + [key])`. Otherwise the stored value is returned. |
| Manifest.LookupFirstFailure | repro.py:89-95 | Once a prefix fails, every longer path fails with the same error. |
| Manifest.Message | repro.py:91-95 | The text of each error: "The value at <sub-path> is not a mapping" or "The key <sub-path> could not be found", the sub-path joined with `>`. |
| Manifest.ParseMessage | repro.py:91-95 | Reads a message back into the kind of error and its sub-path; the partner of `Message`. |
| Manifest.PathTextRoundTrip | repro.py:92 | Splitting the text of a sub-path at `>` gives the sub-path back, the empty one included, when no key contains `>` and the path is not the single empty key. |
| Manifest.MessageNamesPath | repro.py:91-95 | A message can be parsed back to the kind of error and the exact sub-path, when no key contains `>` and the path is not the single empty key. This includes the empty sub-path of a manifest that is not a mapping. |
| Text.SplitJoin | repro.py:92 | Splitting at `>` undoes `'>'.join` when no part contains `>`. |
| Source.ScpMatch | repro.py:129 | `re.match` of the SCP pattern: the user up to the first `@`, the host as the longest run of host characters after it, which must be followed by `:`, and the path up to the first line break. |
| Source.ScpMatchSound | repro.py:129 | Whatever `re.match` accepts is `user@host:path`, followed by nothing or a line break. The user has no `@`, the host is a non-empty run of `[A-Za-z0-9.-]`, and the path has no line break. |
| Source.ScpMatchComplete | repro.py:129 | Every locator of that shape matches, with exactly those three groups. |
| Source.Candidates | repro.py:128-130 | The list starts with the locator. It has a second element exactly when the pattern matches, and that element is `https://` + host + `/` + path. |
| Source.CandidatesOfScp | repro.py:128-130 | An SCP-like locator gives exactly `[locator, https://host/path]`. |
| Source.NoFallbackWithoutAt | repro.py:128-129 | A locator without `@` gives only itself. |
| Source.CloneLoop | repro.py:136-148 | The clone attempts of the `for` loop: each candidate is cloned into the directory as the previous attempt left it, and checked out when the clone succeeded, until one checks out. |
| Source.CloneLoopOrder | repro.py:136-148 | Candidates are tried in list order. Every attempt but the last failed. The loop stops at the first candidate that clones and checks out. When none does, every candidate was tried. |
| Source.CloneLoopNoCleanup | repro.py:136-144 | Each attempt finds the directory as the previous attempt left it. |
| Source.LeftoverCloneBlocksFallback | repro.py:136-144 | With a `git` that refuses a non-empty directory, a first clone whose checkout fails makes the HTTPS fallback fail too. |
| Source.TryCandidates | repro.py:136-148 | The `for`/`else` loop makes exactly the attempts of the clone loop, and reports success exactly when the last attempt checked out. |
| Source.DownloadCode | repro.py:112-149 | The download stage: exit 2 on a failed lookup, an uncaught assertion on a locator or commit that is not a string, the clone loop, and exit 3 when it finds nothing. |
| Source.DownloadStage | repro.py:112-149 | The stage makes exactly the attempts and takes exactly the step of the download specification. |
| Container.BaseLayer | repro.py:160-176 | `basefile or f"FROM {image}"` is the pinned base file, because it is not empty. |
| Container.CommandIsLastLine | repro.py:23-32 | The filled template is the fixed head, then `CMD `, the command and a line break. |
| Container.DockerfileExecForm | repro.py:172-180 | For a list of strings, the Dockerfile is the fixed header followed by `CMD` and the exec form. Reading the exec form back gives the same arguments. |
| Container.ConfigureDockerContainer | repro.py:152-187 | The stage stops exactly when the command lookup fails, and then writes nothing and exits with 4. Otherwise it writes the Dockerfile of the recorded command. |
| Container.RunExperiment | repro.py:190-210 | The run stage: the command lookup (a missing key exits with 4, any other lookup error escapes), the uncaught assertion on a command that is not a list of strings, then the build and run invocations, a non-zero status of either raising. |
| Container.RunStage | repro.py:190-210 | The stage's statements produce exactly the invocations and the end of the run specification. |
| Container.RunInvocations | repro.py:204-210 | With network access on, an argument list and a `docker` that succeeds, the stage calls `docker build -t repro-experiment <dir>` and then `docker --rm repro-experiment`, and nothing else. |
| Json.Dumps | repro.py:178 | `json.dumps` with its default separators and `ensure_ascii`. |
| Json.GetOr | repro-check.py:159-174 | `dict.get`: an absent key gives `None`, a present one its value. |
| Json.Truthy | repro-check.py:164-174 | Python's truth value of a loaded value. |
| Json.EscapeChar | repro.py:178 | The escape of any character is non-empty printable ASCII that does not start with a quote. |
| JsonDecode.EscapeCharRoundTrip | repro.py:178 | Decoding the escape of any character gives the character back and stops exactly after it. This covers surrogate pairs. |
| JsonDecode.EscapeStringRoundTrip | repro.py:178 | An escaped string body decodes back to the string, up to its closing quote. |
| JsonDecode.DumpsArgvRoundTrip | repro.py:178 | `json.dumps` of any list of strings decodes back to the same list. |
| JsonDecode.QuoteIsAscii | repro.py:178 | `json.dumps` of a string is printable ASCII. |
| Pipeline.Reproduce | repro.py:214-224 | `reproduce_command`: the four stages in order, each ending the run or letting the next one go on; 0 is returned when none stopped it. |
| Pipeline.ReproduceCommand | repro.py:214-224 | Running the stages one after the other gives exactly the run's report. |
| Pipeline.StagesInOrder | repro.py:214-224 | The stages entered are a prefix of load, download, configure, run. A Dockerfile exists exactly when the run stage was entered. `docker` is called only after that. Configuring is reached only after a checkout succeeded. |
| Pipeline.ExitOneIffUnparsable | repro.py:100-109 | `sys.exit(1)` happens exactly when the manifest is not valid YAML. |
| Pipeline.StatusOneIffUnparsableOrRaised | repro.py:100-224 | The process status is 1 exactly when the manifest is not valid YAML or an exception escaped, so the status alone does not tell these apart. |
| Pipeline.ExitTwoIffNoSource | repro.py:114-125 | Exit code 2 occurs exactly when the locator or commit lookup fails, and then nothing was cloned. |
| Pipeline.ExitThreeIffCloneFails | repro.py:118-148 | Exit code 3 occurs exactly when both values are strings and no attempt succeeded, and then every candidate was tried. |
| Pipeline.ExitFourIffNoCommand | repro.py:182-201 | Exit code 4 occurs exactly when the code was fetched and the command lookup fails. No Dockerfile is written then, and `docker` is never called. |
| Pipeline.ReturnsZeroIffAllStagesPass | repro.py:204-224 | The command returns 0 exactly when the checkout succeeded, the command is a list of strings and both invocations exit with 0. The Dockerfile and the two invocations are then exactly as specified. |
| Pipeline.RaisedErrors | repro.py:118-210 | The only exceptions that escape are a failed type assertion in the download or run stage, or a non-zero status of an invocation that was made. |
| Pipeline.NonArgvCommandWritesDockerfile | repro.py:172-194 | A command that is not a list of strings is still written into the Dockerfile. Its assertion then fails before `docker` is called. |
| Pipeline.StatusZeroIffReturned | repro.py:214-224 | The process status is 0 exactly when the command returned 0. |
| PipelineScenarios.ManifestLookups | repro.py:115-117 | The three paths are read from a concrete manifest. |
| PipelineScenarios.HttpsFallbackReached | repro.py:128-148 | A refused SSH clone is followed by an HTTPS clone into the still empty directory, and the run returns 0. |
| PipelineScenarios.MissingCommandExitsFour | repro.py:172-187 | A manifest without a command is fetched and then exits with 4, before anything is written. |
| Scenarios.CandidatesExample | repro.py:128-130 | `git@example.org:group/project.git` falls back to `https://example.org/group/project.git`. |
| Audit.HintsDistinctByTitle | repro-check.py:56-72 | No two hints share a title, so the enumeration maps its members to distinct `(title, text)` pairs. |
| Audit.AllSucceed | repro-check.py:53 | `all(...)` holds exactly when every result is `SUCCESS`. |
| Audit.Evaluate | repro-check.py:44-53 | The results are returned unchanged, with a flag that is true exactly when every subcheck succeeded. |
| Audit.EmptyCheckSucceeds | repro-check.py:53 | An empty list of subchecks counts as a success. |
| Audit.PassIffAllSucceed | repro-check.py:189 | Comparing the `bool` flag with `Result.SUCCESS` shows PASS exactly when every subcheck succeeded. |
| GitCheck.GitSubchecks | repro-check.py:93-122 | There are seven subchecks in a repository and one outside it, and the first is always the repository subcheck. |
| GitCheck.SubcheckOrder | repro-check.py:96-122 | The names are Repository, Remote origin, Branch, Commit, Untracked files, Uncommitted changes and Unpushed changes, in that order, or only Repository. |
| GitCheck.NotARepository | repro-check.py:93-98 | Outside a repository there is exactly one failing subcheck, with the Git hint and "Not a git repository". |
| GitCheck.RepositoryOutcomes | repro-check.py:93-122 | Inside a repository, the root is shown with the Git hint. Branch and Commit succeed with no hint, showing the branches and the commit. The remote origin shows itself, carries the placeholder hint, and fails exactly when it is empty. Each of the last three fails exactly when its measure is non-empty. |
| GitCheck.CleanlinessMessages | repro-check.py:111-122 | Untracked files, uncommitted changes and unpushed commits each carry their own hint, and show the first text when their measure is non-empty and the second otherwise. |
| GitCheck.DetachedBranch | repro-check.py:103-106 | An empty local or upstream branch is shown as `detached`, and a non-empty one as itself. |
| GitCheck.FailuresHaveHints | repro-check.py:96-122 | Every failing subcheck carries a hint. |
| GitCheck.GitCheckPasses | repro-check.py:93-122 | The check passes exactly in a repository with an origin and nothing untracked, uncommitted or unpushed. |
| Jsonc.StripComments | repro-check.py:153 | The comment rewrite leaves no `//` in the text and never lengthens it. |
| Jsonc.StripLine | repro-check.py:153 | One line is cut to its prefix before its first `//`. |
| Jsonc.StripCommentsByLines | repro-check.py:153 | The scan equals cutting every line at its first `//` and keeping the line breaks. |
| Jsonc.CommentCutsRestOfLine | repro-check.py:153 | The first `//` of a line cuts the rest of that line, whatever comes before or after it, quotes included. |
| Jsonc.CutsInsideStrings | repro-check.py:152-153 | `["a//b"]` becomes `["a`: the pattern cuts inside a string value. |
| Jsonc.NoCommentUnchanged | repro-check.py:153 | Text without `//` passes unchanged. |
| Jsonc.StripCommentsIdempotent | repro-check.py:153 | A second comment pass changes nothing. |
| Jsonc.LeadingComment | repro-check.py:153 | A comment on the first line goes, and its line break stays. |
| Jsonc.SkipSpace | repro-check.py:155 | `\s*` stops at the first character that is not whitespace in the sense of `str.isspace`. |
| Jsonc.StripTrailingCommas | repro-check.py:155 | The left-to-right substitution that replaces each comma followed by whitespace and a closer with what follows the comma. |
| Jsonc.StripTrailingCommasIsDrop | repro-check.py:155 | The comma rewrite drops exactly the commas followed by whitespace and `}` or `]`. |
| Jsonc.DropOnlyCommas | repro-check.py:155 | No character but `,` is removed, and every other character keeps its count. |
| Jsonc.BothPassesExample | repro-check.py:152-155 | Both rewrites turn `// c\n{"a":1,}` into `\n{"a":1}`. |
| DevContainerCheck.DevContainerSubchecks | repro-check.py:137-174 | The dev container check's subchecks: the missing configuration, or the first file read, rewritten and loaded, with an exception when any of these fails. |
| DevContainerCheck.ConfigSubchecks | repro-check.py:157-174 | A configuration that is not a mapping, or whose truthy `build` is not one, raises. Otherwise the last subcheck is the post-create command. |
| DevContainerCheck.NoConfigurationFile | repro-check.py:142-144 | Without a configuration file there is exactly one failing subcheck, with the dev container hint. |
| DevContainerCheck.OnlyFirstPath | repro-check.py:146-157 | Only the first configuration file counts. When it cannot be read, the check raises; otherwise the loader sees it after both rewrites. |
| DevContainerCheck.BaseImageRule | repro-check.py:162-174 | With neither an image nor a Dockerfile there is one failing placeholder subcheck. Otherwise there is one succeeding subcheck per truthy value, image first, showing it. The post-create command is always last, succeeds, and reads `<not set>` when absent. |
| DevContainerCheck.FailuresHaveHints | repro-check.py:142-174 | Every failing subcheck carries a hint. |
| DevContainerCheck.DevContainerCheckPasses | repro-check.py:162-174 | The check passes exactly when the image or the Dockerfile is truthy. |
| AuditMain.HintsOf | repro-check.py:193-198 | The hints of one check's subchecks that did not succeed and have one, in subcheck order; never more than the subchecks. |
| AuditMain.AllHints | repro-check.py:188-198 | The hints of several checks, in check order. |
| AuditMain.RunAudit | repro-check.py:177-202 | `main`: an exception from the dev container check ends the report; otherwise each check's verdict, the hints, the closing line and the exit code. |
| AuditMain.GitHints | repro-check.py:93-122 | The Git check contributes the Git hint outside a repository. Inside one it contributes the placeholder hint of a missing origin, then the hints of untracked files, uncommitted changes and unpushed commits, each exactly when its measure is non-empty. |
| AuditMain.CollectHints | repro-check.py:186-198 | The nested loops collect exactly the hints of non-succeeding subchecks that have one, in check order and then subcheck order. |
| AuditMain.HintsOfAppend | repro-check.py:193-198 | Collecting over two lists is collecting over each, in order. |
| AuditMain.HintsOfMembers | repro-check.py:197-198 | A hint is collected exactly when some subcheck that did not succeed carries it. |
| AuditMain.HintsOfEmpty | repro-check.py:197-199 | No hint is collected exactly when no subcheck is actionable. |
| AuditMain.AuditCommand | repro-check.py:177-235 | The report's statements produce exactly the audit run of the specification. |
| AuditMain.ReportedHints | repro-check.py:186-202 | The hints are the Git check's, then the dev container check's. The exit code is 0 exactly when there are none. Otherwise it is 1, and the closing line gives their number. |
| AuditMain.ExitZeroIffPassed | repro-check.py:187-235 | When every failing subcheck has a hint, the exit code is 0 exactly when both checks are shown as passed. |
| AuditMain.ExitZeroIffBothPass | repro-check.py:187-235 | For the two real checks, the audit exits with 0 exactly when both pass. |
| AuditScenarios.BareDirectory | repro-check.py:177-202 | A directory that is neither a repository nor configured gives two failing checks, the Git hint then the dev container hint, "2 actionable item(s)" and exit code 1. |
| AuditScenarios.CleanProject | repro-check.py:177-201 | A clean, pushed repository with a base image gives two passing checks, no hints, and exit code 0. |

## Left out

- Presentation is not modelled. This covers logging, `fmt_message`, `log_message`, the ANSI symbols, `rich` tables and Markdown, the dotted rule, the colour markup of the report, and the name and details lists that `DevContainerCheck` builds but never shows.
- YAML and JSON parsing are oracles. The parsed manifest is a `Json.Value`, and the configuration loader is a function from text to `Option<Value>`. Floats, dates and other YAML scalars are not among the values. Duplicate keys do not occur, because a loader keeps one.
- Cloning, checking out and `docker` are oracles. The temporary directory is a parameter. Its removal, and the `with` block around the repository object, are left out.
- Writing the Dockerfile to disk is not modelled. The model returns its text (`Container.Dockerfile.Text`).
- The Git measures are inputs that have already been decoded to text. The UTF-8 decoding of the tracker's bytes, and a failure of `fetch_info`, are not modelled.
- Reading the configuration file is an oracle. The universal-newline translation of text-mode `open` is left out.
- The `main` entry point of `repro.py` and its argument handling are left out, because they only open the manifest file. `main.py`, the experiment itself, is not part of this model.
- The status of a process ended by an uncaught exception is modelled as 1. `python -O`, which strips `assert` statements, is not modelled.
- Hints are an enumeration, not `(title, text)` tuples. `Audit.Title` and `Audit.Text` map each member to its tuple, and `Audit.HintsDistinctByTitle` shows that distinct members have distinct tuples.
- A subcheck's message is a `Json.Value`. The `str()` rendering that the table applies to it is left out.
- Jsonc.BothPassesExample: the example text is assembled from its pieces rather than written as one literal, to keep the proof small.
