/**
 * The two rewrites that turn a dev container configuration written as JSON
 * with comments into something `json.loads` accepts: `//` comments are cut
 * to the end of their line, then commas right before a closing bracket or
 * brace are dropped. Both are regular-expression substitutions that scan
 * the text left to right and resume after each match.
 */
module Jsonc {
  import opened Text

  // ---- `re.sub(r'//.*?$', '', content, flags=re.MULTILINE)` ----

  /** A `//` starts at index `k`. */
  predicate CommentAt(s: string, k: nat)
    requires k + 1 < |s|
  {
    s[k] == '/' && s[k + 1] == '/'
  }

  /** No `//` anywhere. */
  predicate NoComment(s: string)
  {
    forall k :: 0 <= k < |s| - 1 ==> !CommentAt(s, k)
  }

  /** A character in front of text without `//` starts none unless both are slashes. */
  lemma NoCommentCons(c: char, t: string)
    requires NoComment(t) && (c == '/' && t != [] ==> t[0] != '/')
    ensures NoComment([c] + t)
  {
    var s := [c] + t;
    forall k | 0 <= k < |s| - 1 ensures !CommentAt(s, k) {
      if k > 0 {
        assert s[k] == t[k - 1] && s[k + 1] == t[k];
        assert !CommentAt(t, k - 1);
      }
    }
  }

  lemma NoCommentTail(s: string)
    requires s != [] && NoComment(s)
    ensures NoComment(s[1..])
  {
    var t := s[1..];
    forall k | 0 <= k < |t| - 1 ensures !CommentAt(t, k) {
      assert !CommentAt(s, k + 1);
    }
  }

  /**
   * At the first `//` the lazy `.*?` extends to the first position where
   * the multi-line `$` holds: before the next line break, or at the end.
   * The line break itself stays. Quotes mean nothing to the pattern.
   */
  function StripComments(s: string): (r: string)
    ensures |r| <= |s|
    ensures r != [] ==> r[0] == s[0] || r[0] == '\n'
    ensures NoComment(r)
    decreases |s|
  {
    if |s| < 2 then s
    else if s[0] == '/' && s[1] == '/' then StripComments(s[IndexFrom(s, '\n', 2)..])
    else
      var r := StripComments(s[1..]);
      NoCommentCons(s[0], r);
      [s[0]] + r
  }

  /** A line up to its first `//`. */
  function StripLine(line: string): (r: string)
    ensures r == line || (|r| + 2 <= |line| && line[|r|] == '/' && line[|r| + 1] == '/')
    ensures r == line[..|r|]
    ensures NoComment(r)
  {
    if |line| < 2 then line
    else if line[0] == '/' && line[1] == '/' then ""
    else
      var r := StripLine(line[1..]);
      NoCommentCons(line[0], r);
      [line[0]] + r
  }

  function StripLines(lines: seq<string>): (r: seq<string>)
    ensures |r| == |lines|
  {
    if lines == [] then [] else [StripLine(lines[0])] + StripLines(lines[1..])
  }

  /** A line that starts with `//` is cut whole; its line break and what follows stay. */
  lemma CommentLine(line: string, rest: string)
    requires '\n' !in line && |line| >= 2 && line[0] == '/' && line[1] == '/'
    requires rest == [] || rest[0] == '\n'
    ensures StripComments(line + rest) == StripComments(rest)
  {
    var s := line + rest;
    IndexFromIs(s, '\n', 2, |line|);
    assert s[|line|..] == rest;
  }

  lemma StripLineKeeps(line: string)
    requires line != [] && !(|line| >= 2 && CommentAt(line, 0))
    ensures StripLine(line) == [line[0]] + StripLine(line[1..])
  {
    if |line| == 1 {
      assert StripLine(line[1..]) == "";
    }
  }

  /** The scan keeps the first character of a line that does not start with `//`. */
  lemma StripCommentsKeeps(line: string, rest: string)
    requires line != [] && !(|line| >= 2 && CommentAt(line, 0))
    requires '\n' !in line && (rest == [] || rest[0] == '\n')
    ensures StripComments(line + rest) == [line[0]] + StripComments(line[1..] + rest)
  {
    var s := line + rest;
    assert s[0] == line[0] && s[1..] == line[1..] + rest;
    if |s| >= 2 && |line| == 1 {
      assert s[1] == '\n';
    }
    if |s| == 1 {
      assert StripComments(s[1..]) == "";
    }
  }

  /** A line that does not start with `//` keeps its first character. */
  lemma KeepFirst(line: string, rest: string)
    requires '\n' !in line && line != [] && !(|line| >= 2 && CommentAt(line, 0))
    requires rest == [] || rest[0] == '\n'
    requires StripComments(line[1..] + rest) == StripLine(line[1..]) + StripComments(rest)
    ensures StripComments(line + rest) == StripLine(line) + StripComments(rest)
  {
    StripCommentsKeeps(line, rest);
    StripLineKeeps(line);
    ConsAppend(line[0], StripLine(line[1..]), StripComments(rest));
  }

  lemma ConsAppend(c: char, a: string, b: string)
    ensures [c] + (a + b) == ([c] + a) + b
  {
  }

  /** Within one line, the scan and the line-wise cut agree; what follows the line is untouched. */
  lemma {:induction false} StripOneLine(line: string, rest: string)
    requires '\n' !in line
    requires rest == [] || rest[0] == '\n'
    ensures StripComments(line + rest) == StripLine(line) + StripComments(rest)
    decreases |line|
  {
    if line == [] {
      assert line + rest == rest;
    } else if |line| >= 2 && CommentAt(line, 0) {
      CommentLine(line, rest);
    } else {
      StripOneLine(line[1..], rest);
      KeepFirst(line, rest);
    }
  }

  lemma SplitAtBreak(line: string, t: string)
    requires '\n' !in line
    ensures Split(line + "\n" + t, '\n') == [line] + Split(t, '\n')
  {
    var rest := "\n" + t;
    assert line + "\n" + t == line + rest;
    SplitPlain(line, '\n', rest);
    assert rest[1..] == t;
    assert Split(rest, '\n') == [""] + Split(t, '\n');
    assert Split(rest, '\n')[0] == "" && Split(rest, '\n')[1..] == Split(t, '\n');
    assert line + "" == line;
  }

  lemma StripAfterBreak(t: string)
    ensures StripComments("\n" + t) == "\n" + StripComments(t)
  {
    var rest := "\n" + t;
    assert rest[1..] == t;
    if |rest| < 2 {
      assert t == [];
    }
  }

  lemma LastLine(line: string)
    requires '\n' !in line
    ensures StripComments(line) == Join(StripLines(Split(line, '\n')), "\n")
  {
    assert line == line + "";
    StripOneLine(line, "");
    assert StripComments(line) == StripLine(line) + "";
    SplitPlain(line, '\n', "");
    assert Split("", '\n') == [""];
    assert Split(line, '\n') == [line];
    assert StripLines([line]) == [StripLine(line)];
  }

  lemma StripThroughBreak(line: string, t: string)
    requires '\n' !in line
    ensures StripComments(line + "\n" + t) == StripLine(line) + "\n" + StripComments(t)
  {
    assert line + "\n" + t == line + ("\n" + t);
    StripOneLine(line, "\n" + t);
    StripAfterBreak(t);
  }

  lemma JoinStripped(line: string, lines: seq<string>)
    requires |lines| >= 1
    ensures Join(StripLines([line] + lines), "\n") == StripLine(line) + "\n" + Join(StripLines(lines), "\n")
  {
    assert ([line] + lines)[1..] == lines;
    assert StripLines([line] + lines) == [StripLine(line)] + StripLines(lines);
    JoinCons(StripLine(line), StripLines(lines), "\n");
  }

  lemma LineThenMore(line: string, t: string)
    requires '\n' !in line
    requires StripComments(t) == Join(StripLines(Split(t, '\n')), "\n")
    ensures StripComments(line + "\n" + t) == Join(StripLines(Split(line + "\n" + t, '\n')), "\n")
  {
    StripThroughBreak(line, t);
    SplitAtBreak(line, t);
    JoinStripped(line, Split(t, '\n'));
  }

  /** The scan is the same as cutting every line at its first `//`. */
  lemma {:induction false} StripCommentsByLines(s: string)
    ensures StripComments(s) == Join(StripLines(Split(s, '\n')), "\n")
    decreases |s|
  {
    var e := IndexFrom(s, '\n', 0);
    var line := s[..e];
    assert '\n' !in line;
    if e == |s| {
      assert s == line;
      LastLine(line);
    } else {
      var t := s[e + 1..];
      assert s == line + "\n" + t;
      StripCommentsByLines(t);
      LineThenMore(line, t);
    }
  }

  /** `before` holds no `//` and does not end in `/`, so its first `//` is the one after it. */
  predicate NoCommentBefore(before: string)
  {
    NoComment(before) && (before != [] ==> before[|before| - 1] != '/')
  }

  lemma {:induction false} StripLineAt(before: string, after: string)
    requires NoCommentBefore(before)
    ensures StripLine(before + "//" + after) == before
    decreases |before|
  {
    var line := before + "//" + after;
    if before == [] {
      assert line[0] == '/' && line[1] == '/';
    } else {
      assert line[0] == before[0] && line[1..] == before[1..] + "//" + after;
      if |before| >= 2 {
        assert !CommentAt(before, 0);
      }
      assert !CommentAt(line, 0);
      NoCommentTail(before);
      StripLineAt(before[1..], after);
      assert [before[0]] + before[1..] == before;
    }
  }

  /**
   * The first `//` of a line cuts the rest of that line, whatever surrounds
   * it: the pattern knows nothing of string literals.
   */
  lemma CommentCutsRestOfLine(before: string, after: string)
    requires NoCommentBefore(before) && '\n' !in before && '\n' !in after
    ensures StripComments(before + "//" + after) == before
  {
    var line := before + "//" + after;
    assert '\n' !in line by {
      assert forall k :: 0 <= k < |line| ==> line[k] in before || line[k] == '/' || line[k] in after;
    }
    StripOneLine(line, "");
    assert line + "" == line && before + "" == before;
    StripLineAt(before, after);
  }

  /** So `["a//b"]`, a list holding a string with two slashes, loses its closing quote and bracket. */
  lemma CutsInsideStrings(s: string)
    requires s == "[\"a//b\"]"
    ensures StripComments(s) == "[\"a"
  {
    var before, after := "[\"a", "b\"]";
    assert s == before + "//" + after;
    assert before == ['[', '"', 'a'] && after == ['b', '"', ']'];
    assert NoComment(before);
    CommentCutsRestOfLine(before, after);
  }

  // ---- `re.sub(r',(\s*[}\]])', r'\1', content)` ----

  /** The characters `\s` matches: those `str.isspace` accepts. */
  predicate IsSpace(c: char)
  {
    || '\t' <= c <= '\r'
    || '\U{1c}' <= c <= '\U{1f}'
    || c == ' ' || c == '\U{85}' || c == '\U{a0}' || c == '\U{1680}'
    || '\U{2000}' <= c <= '\U{200a}'
    || c == '\U{2028}' || c == '\U{2029}' || c == '\U{202f}' || c == '\U{205f}' || c == '\U{3000}'
  }

  /** The first index at or after `i` that is not whitespace, or `|s|`. */
  function SkipSpace(s: string, i: nat): (k: nat)
    requires i <= |s|
    ensures i <= k <= |s|
    ensures k < |s| ==> !IsSpace(s[k])
    ensures forall j :: i <= j < k ==> IsSpace(s[j])
    decreases |s| - i
  {
    if i == |s| || !IsSpace(s[i]) then i else SkipSpace(s, i + 1)
  }

  predicate IsCloser(c: char)
  {
    c == '}' || c == ']'
  }

  /**
   * The pattern matches at `i` exactly when `s[i]` is a comma and the first
   * character after the whitespace that follows is a closer: greedy `\s*`
   * cannot give anything back that would help, as no closer is whitespace.
   */
  predicate TrailingCommaAt(s: string, i: nat)
    requires i < |s|
  {
    s[i] == ',' && SkipSpace(s, i + 1) < |s| && IsCloser(s[SkipSpace(s, i + 1)])
  }

  /**
   * The substitution from index `i` on: a match is replaced by its group,
   * which is the match without its comma, and the scan resumes after it.
   */
  function StripTrailingCommasFrom(s: string, i: nat): string
    requires i <= |s|
    decreases |s| - i
  {
    if i == |s| then ""
    else if TrailingCommaAt(s, i) then
      var j := SkipSpace(s, i + 1);
      s[i + 1..j + 1] + StripTrailingCommasFrom(s, j + 1)
    else [s[i]] + StripTrailingCommasFrom(s, i + 1)
  }

  function StripTrailingCommas(s: string): string
  {
    StripTrailingCommasFrom(s, 0)
  }

  /**
   * The reference: keep every character except a comma followed by
   * whitespace and a closer. Nothing but commas is removed.
   */
  function DropTrailingCommas(s: string): (r: string)
    ensures |r| <= |s|
  {
    if s == [] then ""
    else (if TrailingCommaAt(s, 0) then "" else [s[0]]) + DropTrailingCommas(s[1..])
  }

  /** The reference removes nothing but commas. */
  lemma {:induction false} DropOnlyCommas(s: string)
    ensures multiset(DropTrailingCommas(s)) <= multiset(s)
    ensures forall c :: c != ',' ==> multiset(DropTrailingCommas(s))[c] == multiset(s)[c]
  {
    if s != [] {
      var head := if TrailingCommaAt(s, 0) then "" else [s[0]];
      DropOnlyCommas(s[1..]);
      assert multiset(DropTrailingCommas(s)) == multiset(head) + multiset(DropTrailingCommas(s[1..]));
      assert multiset(s) == multiset([s[0]]) + multiset(s[1..]) by {
        assert s == [s[0]] + s[1..];
      }
      assert head == "" ==> s[0] == ',';
    }
  }

  /** Whether the comma at `i` is trailing depends only on the text from `i` on. */
  lemma {:induction false} SkipSpaceSuffix(s: string, i: nat, j: nat)
    requires i <= j <= |s|
    ensures SkipSpace(s, j) - i == SkipSpace(s[i..], j - i)
    decreases |s| - j
  {
    if j < |s| && IsSpace(s[j]) {
      SkipSpaceSuffix(s, i, j + 1);
    }
  }

  lemma TrailingCommaSuffix(s: string, i: nat)
    requires i < |s|
    ensures TrailingCommaAt(s, i) == TrailingCommaAt(s[i..], 0)
  {
    SkipSpaceSuffix(s, i, i + 1);
  }

  /** Text without commas passes the reference unchanged, and does not affect what follows. */
  lemma {:induction false} DropCommaFree(a: string, b: string)
    requires ',' !in a
    ensures DropTrailingCommas(a + b) == a + DropTrailingCommas(b)
    decreases |a|
  {
    if a != [] {
      assert (a + b)[1..] == a[1..] + b;
      assert (a + b)[0] == a[0] && a[0] != ',';
      DropCommaFree(a[1..], b);
      assert [a[0]] + (a[1..] + DropTrailingCommas(b)) == a + DropTrailingCommas(b);
    } else {
      assert a + b == b;
    }
  }

  /** What a match spans after its comma holds no comma: whitespace, then the closer. */
  lemma MatchTailCommaFree(s: string, i: nat)
    requires i < |s| && TrailingCommaAt(s, i)
    ensures ',' !in s[i + 1..SkipSpace(s, i + 1) + 1]
  {
    var j := SkipSpace(s, i + 1);
    var a := s[i + 1..j + 1];
    forall k | 0 <= k < |a| ensures a[k] != ',' {
      assert a[k] == s[i + 1 + k];
    }
  }

  /** The reference at index `i`: the character there goes exactly when it is a trailing comma. */
  lemma DropAt(s: string, i: nat)
    requires i < |s|
    ensures DropTrailingCommas(s[i..]) ==
            (if TrailingCommaAt(s, i) then "" else [s[i]]) + DropTrailingCommas(s[i + 1..])
  {
    var t := s[i..];
    TrailingCommaSuffix(s, i);
    assert t[0] == s[i] && t[1..] == s[i + 1..];
  }

  /** The reference on a match: the comma goes, the whitespace and the closer stay. */
  lemma DropAtMatch(s: string, i: nat)
    requires i < |s| && TrailingCommaAt(s, i)
    ensures var j := SkipSpace(s, i + 1);
            DropTrailingCommas(s[i..]) == s[i + 1..j + 1] + DropTrailingCommas(s[j + 1..])
  {
    var j := SkipSpace(s, i + 1);
    var a := s[i + 1..j + 1];
    assert DropTrailingCommas(s[i + 1..]) == a + DropTrailingCommas(s[j + 1..]) by {
      MatchTailCommaFree(s, i);
      assert s[i + 1..] == a + s[j + 1..];
      DropCommaFree(a, s[j + 1..]);
    }
    assert DropTrailingCommas(s[i..]) == DropTrailingCommas(s[i + 1..]) by {
      DropAt(s, i);
      assert "" + DropTrailingCommas(s[i + 1..]) == DropTrailingCommas(s[i + 1..]);
    }
  }

  /** A match: both sides keep what follows the comma up to the closer, then go on after it. */
  lemma StripMatchStep(s: string, i: nat, j: nat)
    requires i < |s| && TrailingCommaAt(s, i) && j == SkipSpace(s, i + 1)
    requires StripTrailingCommasFrom(s, j + 1) == DropTrailingCommas(s[j + 1..])
    ensures StripTrailingCommasFrom(s, i) == DropTrailingCommas(s[i..])
  {
    DropAtMatch(s, i);
  }

  /** No match: the character is kept on both sides. */
  lemma StripKeepStep(s: string, i: nat)
    requires i < |s| && !TrailingCommaAt(s, i)
    requires StripTrailingCommasFrom(s, i + 1) == DropTrailingCommas(s[i + 1..])
    ensures StripTrailingCommasFrom(s, i) == DropTrailingCommas(s[i..])
  {
    DropAt(s, i);
  }

  /** The substitution removes exactly the commas the reference removes. */
  lemma {:induction false} StripIsDropFrom(s: string, i: nat)
    requires i <= |s|
    ensures StripTrailingCommasFrom(s, i) == DropTrailingCommas(s[i..])
    decreases |s| - i
  {
    if i < |s| {
      if TrailingCommaAt(s, i) {
        var j := SkipSpace(s, i + 1);
        StripIsDropFrom(s, j + 1);
        StripMatchStep(s, i, j);
      } else {
        StripIsDropFrom(s, i + 1);
        StripKeepStep(s, i);
      }
    }
  }

  /**
   * The comma pass equals the reference: only commas are removed, and a
   * comma is removed exactly when whitespace and then `}` or `]` follow it.
   */
  lemma StripTrailingCommasIsDrop(s: string)
    ensures StripTrailingCommas(s) == DropTrailingCommas(s)
  {
    StripIsDropFrom(s, 0);
    assert s[0..] == s;
  }

  /** Text without `//` passes the comment pass unchanged. */
  lemma {:induction false} NoCommentUnchanged(s: string)
    requires NoComment(s)
    ensures StripComments(s) == s
    decreases |s|
  {
    if |s| >= 2 {
      NoCommentTail(s);
      NoCommentUnchanged(s[1..]);
      assert !CommentAt(s, 0);
      assert s == [s[0]] + s[1..];
    }
  }

  /** A second comment pass changes nothing. */
  lemma StripCommentsIdempotent(s: string)
    ensures StripComments(StripComments(s)) == StripComments(s)
  {
    NoCommentUnchanged(StripComments(s));
  }

  /** A comment on the first line goes, its line break stays. */
  lemma LeadingComment(comment: string, rest: string)
    requires '\n' !in comment
    ensures StripComments("//" + comment + "\n" + rest) == "\n" + StripComments(rest)
  {
    var line := "//" + comment;
    assert '\n' !in line;
    assert "//" + comment + "\n" + rest == line + ("\n" + rest);
    StripOneLine(line, "\n" + rest);
    assert StripLine(line) == "";
    StripAfterBreak(rest);
  }

  lemma ExampleBodyHasNoComment(body: string)
    requires body == "{\"a\":1,}"
    ensures StripComments(body) == body
  {
    NoCommentUnchanged(body);
  }

  /** The comment pass on a commented configuration: the comment goes, its line break stays. */
  lemma CommentPassExample(comment: string, body: string)
    requires comment == " c" && body == "{\"a\":1,}"
    ensures StripComments("//" + comment + "\n" + body) == "\n" + body
  {
    LeadingComment(comment, body);
    ExampleBodyHasNoComment(body);
  }

  /** The comma pass on the result: the comma before `}` goes. */
  lemma CommaPassExample(kept: string)
    requires kept == "\n{\"a\":1"
    ensures StripTrailingCommas(kept + ",}") == kept + "}"
  {
    StripTrailingCommasIsDrop(kept + ",}");
    DropCommaFree(kept, ",}");
    var closing := ",}";
    assert TrailingCommaAt(closing, 0);
    assert closing[1..] == "}";
    assert DropTrailingCommas(closing) == "}";
  }

  /** Both passes together turn `// c\n{"a":1,}` into `\n{"a":1}`. */
  lemma BothPassesExample(comment: string, kept: string)
    requires comment == " c" && kept == "{\"a\":1"
    ensures StripTrailingCommas(StripComments("//" + comment + "\n" + kept + ",}")) == "\n" + kept + "}"
  {
    var body := kept + ",}";
    assert "//" + comment + "\n" + kept + ",}" == "//" + comment + "\n" + body;
    CommentPassExample(comment, body);
    CommaPassExample("\n" + kept);
    assert "\n" + body == ("\n" + kept) + ",}";
  }
}
