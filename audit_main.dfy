/**
 * The audit report: both checks run, Git first; every subcheck that did
 * not succeed and has a hint contributes that hint, in check order and
 * subcheck order; the report ends with the number of such items, and the
 * exit code is 0 exactly when there are none.
 */
module AuditMain {
  import opened Wrappers
  import opened Json
  import opened Audit
  import opened GitCheck
  import opened DevContainerCheck

  /** `substatus != Result.SUCCESS and hint is not NO_HINT_NEEDED`. */
  predicate Actionable(s: SubCheck)
  {
    s.result != Success && s.hint.Some?
  }

  /** The hints one check contributes, in subcheck order. */
  function HintsOf(rs: seq<SubCheck>): (hs: seq<Hint>)
    ensures |hs| <= |rs|
  {
    if rs == [] then []
    else HintsOf(rs[..|rs| - 1]) + (if Actionable(rs[|rs| - 1]) then [rs[|rs| - 1].hint.value] else [])
  }

  /** The hints of several checks, in check order. */
  function AllHints(checks: seq<CheckResult>): seq<Hint>
  {
    if checks == [] then []
    else AllHints(checks[..|checks| - 1]) + HintsOf(checks[|checks| - 1].results)
  }

  /** The nested loops of the report, appending to one list of hints. */
  method CollectHints(checks: seq<CheckResult>) returns (hints: seq<Hint>)
    ensures hints == AllHints(checks)
  {
    hints := [];
    var i := 0;
    while i < |checks|
      invariant 0 <= i <= |checks|
      invariant hints == AllHints(checks[..i])
    {
      var rs := checks[i].results;
      var j := 0;
      while j < |rs|
        invariant 0 <= j <= |rs|
        invariant hints == AllHints(checks[..i]) + HintsOf(rs[..j])
      {
        if rs[j].result != Success && rs[j].hint.Some? {
          hints := hints + [rs[j].hint.value];
        }
        assert rs[..j + 1][..j] == rs[..j];
        j := j + 1;
      }
      assert rs[..j] == rs;
      assert checks[..i + 1][..i] == checks[..i];
      i := i + 1;
    }
    assert checks[..i] == checks;
  }

  /** One subcheck contributes its hint exactly when it is actionable. */
  lemma HintsOfSingle(r: SubCheck)
    ensures HintsOf([r]) == if Actionable(r) then [r.hint.value] else []
  {
    assert [r][..0] == [];
  }

  /** Collecting over two lists of subchecks is collecting over each, in order. */
  lemma {:induction false} HintsOfAppend(a: seq<SubCheck>, b: seq<SubCheck>)
    ensures HintsOf(a + b) == HintsOf(a) + HintsOf(b)
    decreases |b|
  {
    if b == [] {
      assert a + b == a;
    } else {
      var b' := b[..|b| - 1];
      assert (a + b)[..|a + b| - 1] == a + b';
      assert (a + b)[|a + b| - 1] == b[|b| - 1];
      HintsOfAppend(a, b');
    }
  }

  /** A hint is collected exactly when some subcheck carrying it did not succeed. */
  lemma {:induction false} HintsOfMembers(rs: seq<SubCheck>, h: Hint)
    ensures h in HintsOf(rs) <==>
            exists k :: 0 <= k < |rs| && rs[k].result != Success && rs[k].hint == Some(h)
    decreases |rs|
  {
    if rs != [] {
      var init := rs[..|rs| - 1];
      HintsOfMembers(init, h);
      if exists k :: 0 <= k < |init| && init[k].result != Success && init[k].hint == Some(h) {
        var k :| 0 <= k < |init| && init[k].result != Success && init[k].hint == Some(h);
        assert rs[k] == init[k];
      }
      if exists k :: 0 <= k < |rs| && rs[k].result != Success && rs[k].hint == Some(h) {
        var k :| 0 <= k < |rs| && rs[k].result != Success && rs[k].hint == Some(h);
        if k < |init| {
          assert init[k] == rs[k];
        }
      }
    }
  }

  /** No hint is collected exactly when every subcheck that did not succeed has none. */
  lemma {:induction false} HintsOfEmpty(rs: seq<SubCheck>)
    ensures HintsOf(rs) == [] <==> forall k :: 0 <= k < |rs| ==> !Actionable(rs[k])
    decreases |rs|
  {
    if rs != [] {
      var init := rs[..|rs| - 1];
      HintsOfEmpty(init);
      assert forall k :: 0 <= k < |init| ==> init[k] == rs[k];
    }
  }

  /** A hint when `c` holds, nothing otherwise. */
  function HintWhen(c: bool, h: Hint): seq<Hint>
  {
    if c then [h] else []
  }

  lemma HintsOfSnoc(rs: seq<SubCheck>, r: SubCheck)
    ensures HintsOf(rs + [r]) == HintsOf(rs) + HintsOf([r])
  {
    assert (rs + [r])[..|rs|] == rs;
    HintsOfSingle(r);
  }

  /** Collecting over seven subchecks is collecting over each, in order. */
  lemma HintsOfSeven(a: SubCheck, b: SubCheck, c: SubCheck, d: SubCheck, e: SubCheck, f: SubCheck, g: SubCheck)
    ensures HintsOf([a, b, c, d, e, f, g]) ==
            HintsOf([a]) + HintsOf([b]) + HintsOf([c]) + HintsOf([d]) + HintsOf([e]) + HintsOf([f]) + HintsOf([g])
  {
    HintsOfSnoc([a], b);
    assert [a] + [b] == [a, b];
    HintsOfSnoc([a, b], c);
    assert [a, b] + [c] == [a, b, c];
    HintsOfSnoc([a, b, c], d);
    assert [a, b, c] + [d] == [a, b, c, d];
    HintsOfSnoc([a, b, c, d], e);
    assert [a, b, c, d] + [e] == [a, b, c, d, e];
    HintsOfSnoc([a, b, c, d, e], f);
    assert [a, b, c, d, e] + [f] == [a, b, c, d, e, f];
    HintsOfSnoc([a, b, c, d, e, f], g);
    assert [a, b, c, d, e, f] + [g] == [a, b, c, d, e, f, g];
  }

  /**
   * The hints the Git check contributes, from the measures: the Git hint
   * outside a repository; inside one, the placeholder hint of a missing
   * origin, then the hints of untracked files, uncommitted changes and
   * unpushed commits, each exactly when its measure is not empty.
   */
  lemma GitHints(info: GitInfo)
    ensures HintsOf(GitSubchecks(info)) ==
            if !IsRepo(info) then [GitRepoHint]
            else HintWhen(info.remoteOrigin == "", TodoHint)
                 + HintWhen(info.uncheckedFiles != "", UncheckedFilesHint)
                 + HintWhen(info.uncommittedChanges != "", UncommittedChangesHint)
                 + HintWhen(info.unpushedChanges != "", UnpushedChangesHint)
  {
    if !IsRepo(info) {
      HintsOfSingle(RepositorySubcheck(info));
    } else {
      HintsOfSeven(RepositorySubcheck(info), RemoteSubcheck(info), BranchSubcheck(info), CommitSubcheck(info),
                   UntrackedSubcheck(info), UncommittedSubcheck(info), UnpushedSubcheck(info));
      var h0 := HintsOfSuccess(RepositorySubcheck(info));
      var h1 := HintsOfCheck(RemoteSubcheck(info), info.remoteOrigin == "", TodoHint);
      var h2 := HintsOfSuccess(BranchSubcheck(info));
      var h3 := HintsOfSuccess(CommitSubcheck(info));
      var h4 := HintsOfCheck(UntrackedSubcheck(info), info.uncheckedFiles != "", UncheckedFilesHint);
      var h5 := HintsOfCheck(UncommittedSubcheck(info), info.uncommittedChanges != "", UncommittedChangesHint);
      var h6 := HintsOfCheck(UnpushedSubcheck(info), info.unpushedChanges != "", UnpushedChangesHint);
      DropEmpties(h0, h1, h2, h3, h4, h5, h6);
    }
  }

  lemma HintsOfSuccess(r: SubCheck) returns (h: seq<Hint>)
    requires r.result == Success
    ensures h == HintsOf([r]) && h == []
  {
    HintsOfSingle(r);
    h := [];
  }

  lemma HintsOfCheck(r: SubCheck, fails: bool, hint: Hint) returns (h: seq<Hint>)
    requires r.hint == Some(hint) && (r.result != Success <==> fails)
    ensures h == HintsOf([r]) && h == HintWhen(fails, hint)
  {
    HintsOfSingle(r);
    h := HintWhen(fails, hint);
  }

  lemma DropEmpties(h0: seq<Hint>, h1: seq<Hint>, h2: seq<Hint>, h3: seq<Hint>, h4: seq<Hint>, h5: seq<Hint>,
                    h6: seq<Hint>)
    requires h0 == [] && h2 == [] && h3 == []
    ensures h0 + h1 + h2 + h3 + h4 + h5 + h6 == h1 + h4 + h5 + h6
  {
    assert h0 + h1 == h1;
    assert h1 + h2 + h3 == h1;
  }

  /** How the report ends. */
  datatype AuditRun =
    | Finished(verdicts: seq<bool>, hints: seq<Hint>, summary: string, code: int)
    | Aborted(error: AuditError)

  const ALL_GOOD := "All good. Nothing left to do!"
  const ACTIONABLE_ITEMS := " actionable item(s)"

  /** The closing line, without its markup. */
  function Summary(hints: seq<Hint>): string
  {
    if hints == [] then ALL_GOOD else NatToDecimal(|hints|) + ACTIONABLE_ITEMS
  }

  /** The report on the subchecks of the two checks: Git first, then the dev container. */
  function Report(git: seq<SubCheck>, dev: Generated): AuditRun
  {
    match dev
    case Crashed(e) => Aborted(e)
    case Yielded(rs) =>
      var checks := [Evaluate(git), Evaluate(rs)];
      var hints := AllHints(checks);
      Finished([ShownAsPass(checks[0]), ShownAsPass(checks[1])], hints, Summary(hints), if hints == [] then 0 else 1)
  }

  /**
   * The report on the measures of the working directory: an exception from
   * the dev container check ends it; otherwise each check is shown as passed
   * or failed, and the hints decide the closing line and the exit code.
   */
  function RunAudit(info: GitInfo, paths: seq<string>, read: string -> Option<string>,
                    parse: string -> Option<Value>): AuditRun
  {
    Report(GitSubchecks(info), DevContainerSubchecks(paths, read, parse))
  }

  /** `main`, with the checks' outcomes as inputs. */
  method AuditCommand(info: GitInfo, paths: seq<string>, read: string -> Option<string>,
              parse: string -> Option<Value>) returns (run: AuditRun)
    ensures run == RunAudit(info, paths, read, parse)
  {
    var git := Evaluate(GitSubchecks(info));
    var dev := DevContainerSubchecks(paths, read, parse);
    if dev.Crashed? {
      return Aborted(dev.error);
    }
    var checks := [git, Evaluate(dev.results)];
    var verdicts := [ShownAsPass(git), ShownAsPass(checks[1])];
    var hints := CollectHints(checks);
    if hints == [] {
      return Finished(verdicts, hints, ALL_GOOD, 0);
    }
    return Finished(verdicts, hints, NatToDecimal(|hints|) + ACTIONABLE_ITEMS, 1);
  }

  lemma AllHintsOfTwo(a: CheckResult, b: CheckResult)
    ensures AllHints([a, b]) == HintsOf(a.results) + HintsOf(b.results)
  {
    var checks := [a, b];
    assert checks[..1][..0] == [];
    assert checks[..1] == [a];
    assert AllHints([a]) == HintsOf(a.results);
  }

  /**
   * The hints are the Git check's, then the dev container check's; the
   * exit code is 0 exactly when there are none, and otherwise the closing
   * line gives their number.
   */
  lemma ReportedHints(git: seq<SubCheck>, dev: seq<SubCheck>)
    ensures var run := Report(git, Yielded(dev));
            && run.Finished?
            && run.hints == HintsOf(git) + HintsOf(dev)
            && (run.code == 0 <==> run.hints == [])
            && (run.code != 0 ==> run.code == 1 && run.summary == NatToDecimal(|run.hints|) + ACTIONABLE_ITEMS)
  {
    AllHintsOfTwo(Evaluate(git), Evaluate(dev));
  }

  /**
   * When every subcheck that can fail carries a hint, the report exits
   * with 0 exactly when both checks are shown as passed.
   */
  lemma ExitZeroIffPassed(git: seq<SubCheck>, dev: seq<SubCheck>)
    requires forall k :: 0 <= k < |git| && git[k].result == Fail ==> git[k].hint.Some?
    requires forall k :: 0 <= k < |dev| && dev[k].result == Fail ==> dev[k].hint.Some?
    ensures var run := Report(git, Yielded(dev));
            run.code == 0 <==> run.verdicts[0] && run.verdicts[1]
  {
    ReportedHints(git, dev);
    HintsOfEmpty(git);
    HintsOfEmpty(dev);
    PassIffAllSucceed(git);
    PassIffAllSucceed(dev);
  }

  /** Every subcheck of both checks that can fail carries a hint, so the audit exits with 0 exactly when both pass. */
  lemma ExitZeroIffBothPass(info: GitInfo, paths: seq<string>, read: string -> Option<string>,
                            parse: string -> Option<Value>)
    requires DevContainerSubchecks(paths, read, parse).Yielded?
    ensures var run := RunAudit(info, paths, read, parse);
            run.code == 0 <==> run.verdicts[0] && run.verdicts[1]
  {
    GitCheck.FailuresHaveHints(info);
    DevContainerCheck.FailuresHaveHints(paths, read, parse);
    ExitZeroIffPassed(GitSubchecks(info), DevContainerSubchecks(paths, read, parse).results);
  }
}
