/**
 * Where the code comes from: the repository locator and commit read from the
 * manifest, the candidate URLs derived from the locator, and the loop that
 * clones and checks out each candidate in turn. Cloning and checking out are
 * an oracle that also sees what the destination directory already holds.
 */
module Source {
  import opened Wrappers
  import opened Json
  import opened Manifest
  import opened Exits
  import opened Text

  const REPOSITORY_PATH: seq<string> := ["implementation", "source", "repository"]
  const COMMIT_PATH: seq<string> := ["implementation", "source", "commit"]

  // ---- The SCP-like locator `user@host:path` ----

  /** The three groups of `([^@]*)@([A-Za-z0-9.-]+):(.*)` matched at the start. */
  datatype Scp = Scp(user: string, host: string, path: string)

  predicate IsHostChar(c: char)
  {
    'A' <= c <= 'Z' || 'a' <= c <= 'z' || '0' <= c <= '9' || c == '.' || c == '-'
  }

  /** The end of the longest run of host characters starting at `i`. */
  function HostEnd(s: string, i: nat): (k: nat)
    requires i <= |s|
    ensures i <= k <= |s|
    ensures k < |s| ==> !IsHostChar(s[k])
    ensures forall j :: i <= j < k ==> IsHostChar(s[j])
    decreases |s| - i
  {
    if i == |s| || !IsHostChar(s[i]) then i else HostEnd(s, i + 1)
  }

  /**
   * `re.match` of the locator pattern. `[^@]*` stops at the first `@`; the
   * greedy host class cannot give back characters because `:` is not one of
   * them; `.` does not match a newline, so the path ends at the first one.
   */
  function ScpMatch(s: string): Option<Scp>
  {
    var at := IndexFrom(s, '@', 0);
    if at == |s| then None
    else
      var h := HostEnd(s, at + 1);
      if h == at + 1 || h == |s| || s[h] != ':' then None
      else
        var e := IndexFrom(s, '\n', h + 1);
        Some(Scp(s[..at], s[at + 1..h], s[h + 1..e]))
  }

  /** The locator is `user@host:path` followed by nothing or by a line break. */
  predicate ScpShaped(user: string, host: string, path: string, rest: string)
  {
    && '@' !in user
    && host != []
    && (forall c <- host :: IsHostChar(c))
    && '\n' !in path
    && (rest == [] || rest[0] == '\n')
  }

  /** Cutting at the `@` and at the `:` and putting the pieces back together gives the text back. */
  lemma Reassemble(s: string, at: nat, h: nat, e: nat)
    requires at < h < e <= |s| && s[at] == '@' && s[h] == ':'
    ensures s == s[..at] + "@" + s[at + 1..h] + ":" + s[h + 1..e] + s[e..]
  {
    assert s[..at] + [s[at]] + s[at + 1..h] + [s[h]] + s[h + 1..e] + s[e..] == s;
  }

  lemma NotInSlice(s: string, i: nat, k: nat, c: char)
    requires i <= k <= |s| && forall j :: i <= j < k ==> s[j] != c
    ensures c !in s[i..k]
  {
    assert forall j :: 0 <= j < k - i ==> s[i..k][j] == s[i + j];
  }

  lemma HostCharsInSlice(s: string, i: nat, k: nat)
    requires i <= k <= |s| && forall j :: i <= j < k ==> IsHostChar(s[j])
    ensures forall c <- s[i..k] :: IsHostChar(c)
  {
    assert forall j :: 0 <= j < k - i ==> s[i..k][j] == s[i + j];
  }

  /** Whatever the pattern matches has the shape of the pattern. */
  lemma ScpMatchSound(s: string)
    requires ScpMatch(s).Some?
    ensures var m := ScpMatch(s).value;
            var n := |m.user| + |m.host| + |m.path| + 2;
            n <= |s| && s == m.user + "@" + m.host + ":" + m.path + s[n..] &&
            ScpShaped(m.user, m.host, m.path, s[n..])
  {
    var at := IndexFrom(s, '@', 0);
    var h := HostEnd(s, at + 1);
    var e := IndexFrom(s, '\n', h + 1);
    assert ScpMatch(s).value == Scp(s[..at], s[at + 1..h], s[h + 1..e]);
    Reassemble(s, at, h, e);
    NotInSlice(s, 0, at, '@');
    HostCharsInSlice(s, at + 1, h);
    NotInSlice(s, h + 1, e, '\n');
  }

  lemma HostEndIs(s: string, i: nat, k: nat)
    requires i <= k <= |s| && (k < |s| ==> !IsHostChar(s[k]))
    requires forall j :: i <= j < k ==> IsHostChar(s[j])
    ensures HostEnd(s, i) == k
  {
  }

  /** The match, read off the positions of the `@`, of the `:` after the host and of the end of the line. */
  lemma ScpMatchAt(s: string, at: nat, h: nat, e: nat)
    requires at + 1 < h < e <= |s|
    requires s[at] == '@' && forall j :: 0 <= j < at ==> s[j] != '@'
    requires s[h] == ':' && forall j :: at + 1 <= j < h ==> IsHostChar(s[j])
    requires (e == |s| || s[e] == '\n') && forall j :: h + 1 <= j < e ==> s[j] != '\n'
    ensures ScpMatch(s) == Some(Scp(s[..at], s[at + 1..h], s[h + 1..e]))
  {
    IndexFromIs(s, '@', 0, at);
    HostEndIs(s, at + 1, h);
    IndexFromIs(s, '\n', h + 1, e);
  }

  /** Every locator of the shape matches, with exactly these groups. */
  lemma ScpMatchComplete(user: string, host: string, path: string, rest: string)
    requires ScpShaped(user, host, path, rest)
    ensures ScpMatch(user + "@" + host + ":" + path + rest) == Some(Scp(user, host, path))
  {
    var s := user + "@" + host + ":" + path + rest;
    var at, h, e := |user|, |user| + 1 + |host|, |user| + 2 + |host| + |path|;
    assert s[..at] == user && s[at + 1..h] == host && s[h + 1..e] == path && s[e..] == rest;
    assert s[at] == '@' && s[h] == ':';
    assert forall j :: 0 <= j < at ==> s[j] != '@' by {
      forall j | 0 <= j < at ensures s[j] != '@' {
        assert s[j] == user[j];
      }
    }
    assert forall j :: at + 1 <= j < h ==> IsHostChar(s[j]) by {
      forall j | at + 1 <= j < h ensures IsHostChar(s[j]) {
        assert s[j] == host[j - at - 1];
        assert host[j - at - 1] in host;
      }
    }
    assert forall j :: h + 1 <= j < e ==> s[j] != '\n' by {
      forall j | h + 1 <= j < e ensures s[j] != '\n' {
        assert s[j] == path[j - h - 1];
      }
    }
    assert e == |s| || s[e] == '\n' by {
      assert e < |s| ==> s[e] == rest[0];
    }
    ScpMatchAt(s, at, h, e);
  }

  /**
   * The URLs to try: the locator itself, then `https://host/path` when the
   * locator is SCP-like.
   */
  function Candidates(repository: string): (c: seq<string>)
    ensures 1 <= |c| <= 2 && c[0] == repository
    ensures |c| == 2 <==> ScpMatch(repository).Some?
    ensures |c| == 2 ==>
              c[1] == "https://" + ScpMatch(repository).value.host + "/" + ScpMatch(repository).value.path
  {
    [repository] +
    match ScpMatch(repository)
    case Some(m) => ["https://" + m.host + "/" + m.path]
    case None => []
  }

  /** An SCP-like locator gets exactly one fallback, built from its host and path. */
  lemma CandidatesOfScp(user: string, host: string, path: string)
    requires ScpShaped(user, host, path, "")
    ensures Candidates(user + "@" + host + ":" + path) ==
            [user + "@" + host + ":" + path, "https://" + host + "/" + path]
  {
    ScpMatchComplete(user, host, path, "");
    assert user + "@" + host + ":" + path + "" == user + "@" + host + ":" + path;
  }

  /** A locator without `@` is tried as it is, and only as it is. */
  lemma NoFallbackWithoutAt(repository: string)
    requires '@' !in repository
    ensures Candidates(repository) == [repository]
  {
  }

  // ---- The clone loop ----

  /** What the destination directory holds: nothing, or a clone left by an earlier candidate. */
  datatype DirState = Empty | Holds(origin: string)

  /**
   * `clone(url, dir)`: whether `Repo.clone_from(url, to_path=dest)` succeeds
   * with the directory in state `dir`; `checkout(url, commit)`: whether
   * checking out `commit` in that clone succeeds.
   */
  datatype GitOracle = GitOracle(clone: (string, DirState) -> bool, checkout: (string, string) -> bool)

  /** One pass of the loop body: the candidate, the directory it met, and how far it got. */
  datatype Attempt = Attempt(url: string, before: DirState, cloned: bool, checkedOut: bool)

  /** The directory after an attempt: a successful clone fills it, and nothing empties it. */
  function After(a: Attempt): DirState
  {
    if a.cloned then Holds(a.url) else a.before
  }

  function Try(git: GitOracle, url: string, commit: string, dir: DirState): Attempt
  {
    var cloned := git.clone(url, dir);
    Attempt(url, dir, cloned, cloned && git.checkout(url, commit))
  }

  /** The attempts the loop makes from `dir` on: up to and including the first full success. */
  function CloneLoop(git: GitOracle, candidates: seq<string>, commit: string, dir: DirState): seq<Attempt>
    decreases |candidates|
  {
    if candidates == [] then []
    else
      var a := Try(git, candidates[0], commit, dir);
      if a.checkedOut then [a] else [a] + CloneLoop(git, candidates[1..], commit, After(a))
  }

  predicate Succeeded(trace: seq<Attempt>)
  {
    trace != [] && trace[|trace| - 1].checkedOut
  }

  /**
   * Candidates are tried in order; every attempt but the last failed; the loop
   * stops at the first candidate that clones and checks out, so the ones
   * after it are never tried; when none succeeds, every candidate was tried.
   */
  lemma {:induction false} CloneLoopOrder(git: GitOracle, candidates: seq<string>, commit: string, dir: DirState)
    ensures var trace := CloneLoop(git, candidates, commit, dir);
            && |trace| <= |candidates|
            && (forall k :: 0 <= k < |trace| ==> trace[k].url == candidates[k])
            && (forall k :: 0 <= k < |trace| - 1 ==> !trace[k].checkedOut)
            && (|trace| < |candidates| ==> Succeeded(trace))
            && (!Succeeded(trace) ==> |trace| == |candidates|)
    decreases |candidates|
  {
    if candidates != [] {
      var a := Try(git, candidates[0], commit, dir);
      if !a.checkedOut {
        CloneLoopOrder(git, candidates[1..], commit, After(a));
      }
    }
  }

  /**
   * Nothing cleans the directory between candidates: each attempt meets the
   * directory the previous attempt left, so a clone whose checkout failed is
   * still there when the next candidate is cloned.
   */
  lemma {:induction false} CloneLoopNoCleanup(git: GitOracle, candidates: seq<string>, commit: string, dir: DirState)
    ensures var trace := CloneLoop(git, candidates, commit, dir);
            && (trace != [] ==> trace[0].before == dir)
            && (forall k :: 0 <= k < |trace| - 1 ==> trace[k + 1].before == After(trace[k]))
    decreases |candidates|
  {
    if candidates != [] {
      var a := Try(git, candidates[0], commit, dir);
      if !a.checkedOut {
        CloneLoopNoCleanup(git, candidates[1..], commit, After(a));
      }
    }
  }

  /**
   * With a `git` that refuses to clone into a directory that is not empty, a
   * first candidate that clones but does not check out leaves the HTTPS
   * fallback no chance: the second attempt fails too.
   */
  lemma LeftoverCloneBlocksFallback(git: GitOracle, candidates: seq<string>, commit: string)
    requires |candidates| == 2
    requires forall url, origin :: !git.clone(url, Holds(origin))
    requires git.clone(candidates[0], Empty) && !git.checkout(candidates[0], commit)
    ensures var trace := CloneLoop(git, candidates, commit, Empty);
            |trace| == 2 && trace[1].before == Holds(candidates[0]) && !Succeeded(trace)
  {
    var a := Try(git, candidates[0], commit, Empty);
    var b := Try(git, candidates[1], commit, After(a));
    assert candidates[1..][1..] == [];
    assert CloneLoop(git, candidates[1..], commit, After(a)) == [b];
    assert CloneLoop(git, candidates, commit, Empty) == [a, b];
  }

  // ---- The download stage ----

  /** What the stage did: its attempts, and whether the pipeline goes on. */
  datatype Download = Download(attempts: seq<Attempt>, step: Step)

  /**
   * Read the locator and the commit (a lookup error of either exits with 2
   * before anything is cloned), assert that both are strings, then try the
   * candidates; exhausting them exits with 3.
   */
  function DownloadCode(data: Value, git: GitOracle): Download
  {
    match Lookup(data, REPOSITORY_PATH)
    case Failed(_) => Download([], Stop(Exited(2)))
    case Found(repository) =>
      match Lookup(data, COMMIT_PATH)
      case Failed(_) => Download([], Stop(Exited(2)))
      case Found(commit) =>
        if !repository.Str? || !commit.Str? then Download([], Stop(Raised(AssertionFailed(Downloading))))
        else
          var trace := CloneLoop(git, Candidates(repository.s), commit.s, Empty);
          Download(trace, if Succeeded(trace) then Proceed else Stop(Exited(3)))
  }

  /** One pass of the loop: the attempt at candidate `i`, then the rest unless it succeeded. */
  lemma CloneLoopAt(git: GitOracle, candidates: seq<string>, i: nat, commit: string, dir: DirState)
    requires i < |candidates|
    ensures var a := Try(git, candidates[i], commit, dir);
            CloneLoop(git, candidates[i..], commit, dir) ==
              if a.checkedOut then [a] else [a] + CloneLoop(git, candidates[i + 1..], commit, After(a))
  {
    assert candidates[i..][0] == candidates[i];
    assert candidates[i..][1..] == candidates[i + 1..];
  }

  /**
   * The `for`/`else` loop over the candidates: clone, check out, `break` at
   * the first success; `ok` is false when the loop ran out of candidates.
   */
  method TryCandidates(git: GitOracle, candidates: seq<string>, commit: string) returns (attempts: seq<Attempt>, ok: bool)
    ensures attempts == CloneLoop(git, candidates, commit, Empty)
    ensures ok <==> Succeeded(attempts)
  {
    ghost var trace := CloneLoop(git, candidates, commit, Empty);
    var dir := Empty;
    attempts := [];
    var i := 0;
    while i < |candidates|
      invariant 0 <= i <= |candidates| && |attempts| == i
      invariant !Succeeded(attempts)
      invariant attempts + CloneLoop(git, candidates[i..], commit, dir) == trace
    {
      var url := candidates[i];
      var cloned := git.clone(url, dir);
      var checkedOut := cloned && git.checkout(url, commit);
      var a := Attempt(url, dir, cloned, checkedOut);
      assert a == Try(git, candidates[i], commit, dir);
      CloneLoopAt(git, candidates, i, commit, dir);
      if checkedOut {
        assert CloneLoop(git, candidates[i..], commit, dir) == [a];
        return attempts + [a], true;
      }
      ghost var rest := CloneLoop(git, candidates[i + 1..], commit, After(a));
      assert CloneLoop(git, candidates[i..], commit, dir) == [a] + rest;
      assert (attempts + [a]) + rest == attempts + ([a] + rest);
      attempts := attempts + [a];
      dir := After(a);
      i := i + 1;
    }
    assert candidates[i..] == [];
    return attempts, false;
  }

  /** The stage as the source runs it: two lookups, two assertions, then the loop over the candidates. */
  method DownloadStage(data: Value, git: GitOracle) returns (attempts: seq<Attempt>, step: Step)
    ensures Download(attempts, step) == DownloadCode(data, git)
  {
    var repository := GetNested(data, REPOSITORY_PATH);
    if repository.Failed? {
      return [], Stop(Exited(2));
    }
    var commit := GetNested(data, COMMIT_PATH);
    if commit.Failed? {
      return [], Stop(Exited(2));
    }
    if !repository.value.Str? || !commit.value.Str? {
      return [], Stop(Raised(AssertionFailed(Downloading)));
    }
    var ok;
    attempts, ok := TryCandidates(git, Candidates(repository.value.s), commit.value.s);
    step := if ok then Proceed else Stop(Exited(3));
  }
}
