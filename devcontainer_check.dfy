/**
 * `DevContainerCheck`: the first dev container configuration the tracker
 * finds is read, cleaned of comments and trailing commas, loaded, and
 * turned into subchecks for its base image or Dockerfile and its
 * post-create command. Reading the file and loading JSON are oracles.
 */
module DevContainerCheck {
  import opened Wrappers
  import opened Json
  import opened Audit
  import opened Jsonc

  const FIND_CONFIGURATION := "Find Dev Container Configuration"
  const BASE_OR_DOCKERFILE := "Base image or Dockerfile"
  const BASE_IMAGE := "Base image"
  const DOCKERFILE := "Dockerfile"
  const POST_CREATE := "Post-create command"
  const NOT_SET := "<not set>"

  /** The exceptions the generator lets through. */
  datatype AuditError =
    | Unreadable(path: string)          // opening or reading the file fails
    | MalformedJson(content: string)    // the loader rejects the cleaned text
    | NoGetMethod(receiver: Value)      // `.get` on a loaded value that is not a mapping

  /** What draining the generator gives: its subchecks, or the exception it raised. */
  datatype Generated = Yielded(results: seq<SubCheck>) | Crashed(error: AuditError)

  const NO_CONFIGURATION :=
    SubCheck(FIND_CONFIGURATION, Some(ConfigureDevContainerHint), Str(""), Fail)

  const NO_BASE := SubCheck(BASE_OR_DOCKERFILE, Some(TodoHint), Str(""), Fail)

  /** `value or NOT_SET`. */
  function OrNotSet(v: Value): Value
  {
    if Truthy(v) then v else Str(NOT_SET)
  }

  /** A `.get` that worked, or the error it raised. */
  datatype Outcome<T> = Ok(value: T) | Err(error: AuditError)

  /** `build.get("dockerfile") if (build := config.get("build")) else None`, or the error of `.get`. */
  function DockerfileOf(config: seq<Entry>): Outcome<Value>
  {
    var build := GetOr(config, "build");
    if !Truthy(build) then Ok(Null)
    else if build.Object? then Ok(GetOr(build.entries, "dockerfile"))
    else Err(NoGetMethod(build))
  }


  /** The rules on a loaded configuration. */
  function ConfigSubchecks(config: Value): (g: Generated)
    ensures g.Crashed? <==> !config.Object? || DockerfileOf(config.entries).Err?
    ensures g.Yielded? ==> |g.results| >= 2 && g.results[|g.results| - 1].name == POST_CREATE
  {
    if !config.Object? then Crashed(NoGetMethod(config))
    else match DockerfileOf(config.entries)
      case Err(e) => Crashed(e)
      case Ok(dockerfile) =>
        var image := GetOr(config.entries, "image");
        var base :=
          if !Truthy(image) && !Truthy(dockerfile) then [NO_BASE]
          else (if Truthy(image) then [SubCheck(BASE_IMAGE, None, OrNotSet(image), Success)] else [])
               + (if Truthy(dockerfile) then [SubCheck(DOCKERFILE, None, OrNotSet(dockerfile), Success)] else []);
        var postCreate := GetOr(config.entries, "postCreateCommand");
        Yielded(base + [SubCheck(POST_CREATE, None, OrNotSet(postCreate), Success)])
  }

  /**
   * `paths` is the list of configuration files the tracker found, `read`
   * gives a file's text (`None` when it cannot be opened), `parse` the
   * value `json.loads` makes of a text (`None` when it rejects it).
   */
  function DevContainerSubchecks(paths: seq<string>, read: string -> Option<string>,
                                 parse: string -> Option<Value>): Generated
  {
    if paths == [] then Yielded([NO_CONFIGURATION])
    else match read(paths[0])
      case None => Crashed(Unreadable(paths[0]))
      case Some(content) =>
        var cleaned := StripTrailingCommas(StripComments(content));
        match parse(cleaned)
        case None => Crashed(MalformedJson(cleaned))
        case Some(config) => ConfigSubchecks(config)
  }

  /** Without a configuration file there is one failing subcheck, with the hint to configure one. */
  lemma NoConfigurationFile(read: string -> Option<string>, parse: string -> Option<Value>)
    ensures DevContainerSubchecks([], read, parse) == Yielded([NO_CONFIGURATION])
    ensures NO_CONFIGURATION.result == Fail && NO_CONFIGURATION.hint == Some(ConfigureDevContainerHint)
  {
  }

  /**
   * Only the first configuration file counts: an unreadable one raises, and
   * the loader sees a readable one only after both rewrites.
   */
  lemma OnlyFirstPath(paths: seq<string>, read: string -> Option<string>, parse: string -> Option<Value>)
    requires paths != []
    ensures DevContainerSubchecks(paths, read, parse) == DevContainerSubchecks([paths[0]], read, parse)
    ensures read(paths[0]).None? ==> DevContainerSubchecks(paths, read, parse) == Crashed(Unreadable(paths[0]))
    ensures read(paths[0]).Some? ==>
              var cleaned := StripTrailingCommas(StripComments(read(paths[0]).value));
              DevContainerSubchecks(paths, read, parse) ==
                if parse(cleaned).None? then Crashed(MalformedJson(cleaned)) else ConfigSubchecks(parse(cleaned).value)
  {
  }

  /**
   * On a mapping whose `build`, when truthy, is a mapping too: one failing
   * subcheck with the placeholder hint when neither the image nor the
   * Dockerfile is truthy, otherwise one succeeding subcheck per truthy one,
   * image first, showing its value; then the post-create command, which
   * always succeeds and reads `<not set>` when it is absent.
   */
  lemma BaseImageRule(config: seq<Entry>)
    requires DockerfileOf(config).Ok?
    ensures ConfigSubchecks(Object(config)).Yielded?
    ensures var rs := ConfigSubchecks(Object(config)).results;
            rs[|rs| - 1] == SubCheck(POST_CREATE, None, OrNotSet(GetOr(config, "postCreateCommand")), Success)
    ensures !HasKey(config, "postCreateCommand") ==>
              var rs := ConfigSubchecks(Object(config)).results;
              rs[|rs| - 1].message == Str(NOT_SET)
    ensures var rs := ConfigSubchecks(Object(config)).results;
            !Truthy(GetOr(config, "image")) && !Truthy(DockerfileOf(config).value) <==> rs[..|rs| - 1] == [NO_BASE]
    ensures Truthy(GetOr(config, "image")) || Truthy(DockerfileOf(config).value) ==>
              var rs := ConfigSubchecks(Object(config)).results;
              && Names(rs[..|rs| - 1]) ==
                   (if Truthy(GetOr(config, "image")) then [BASE_IMAGE] else [])
                   + (if Truthy(DockerfileOf(config).value) then [DOCKERFILE] else [])
              && (forall k :: 0 <= k < |rs| ==> rs[k].result == Success)
              && (Truthy(GetOr(config, "image")) ==> rs[0].message == GetOr(config, "image"))
              && (Truthy(DockerfileOf(config).value) ==> rs[|rs| - 2].message == DockerfileOf(config).value)
  {
    var rs := ConfigSubchecks(Object(config)).results;
    assert rs[..|rs| - 1] + [rs[|rs| - 1]] == rs;
    if Truthy(GetOr(config, "image")) || Truthy(DockerfileOf(config).value) {
      assert rs[0].result == Success && NO_BASE.result == Fail;
    }
  }

  /** Every subcheck that can fail carries a hint. */
  lemma FailuresHaveHints(paths: seq<string>, read: string -> Option<string>, parse: string -> Option<Value>)
    ensures var g := DevContainerSubchecks(paths, read, parse);
            g.Yielded? ==> forall k :: 0 <= k < |g.results| && g.results[k].result == Fail ==> g.results[k].hint.Some?
  {
  }

  /** The check passes exactly when the first configuration loads as a mapping with an image or a Dockerfile. */
  lemma DevContainerCheckPasses(config: seq<Entry>)
    requires DockerfileOf(config).Ok?
    ensures Evaluate(ConfigSubchecks(Object(config)).results).success <==>
            Truthy(GetOr(config, "image")) || Truthy(DockerfileOf(config).value)
  {
    BaseImageRule(config);
    var rs := ConfigSubchecks(Object(config)).results;
    if !Truthy(GetOr(config, "image")) && !Truthy(DockerfileOf(config).value) {
      assert rs[0] == NO_BASE;
    }
  }
}
