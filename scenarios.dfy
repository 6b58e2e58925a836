/** Concrete inputs worked through the model. */
module Scenarios {
  import opened Wrappers
  import opened Source

  /** `git@example.org:group/project.git` falls back to `https://example.org/group/project.git`. */
  lemma CandidatesExample(locator: string)
    requires locator == "git@example.org:group/project.git"
    ensures Candidates(locator) == [locator, "https://example.org/group/project.git"]
  {
    var user, host, path := "git", "example.org", "group/project.git";
    ExampleLocator(user, host, path);
    ExampleIsScpShaped(user, host, path);
    CandidatesOfScp(user, host, path);
    ExampleUrl(host, path);
  }

  lemma ExampleLocator(user: string, host: string, path: string)
    requires user == "git" && host == "example.org" && path == "group/project.git"
    ensures user + "@" + host + ":" + path == "git@example.org:group/project.git"
  {
  }

  lemma ExampleUrl(host: string, path: string)
    requires host == "example.org" && path == "group/project.git"
    ensures "https://" + host + "/" + path == "https://example.org/group/project.git"
  {
  }

  lemma ExampleIsScpShaped(user: string, host: string, path: string)
    requires user == "git" && host == "example.org" && path == "group/project.git"
    ensures ScpShaped(user, host, path, "")
  {
    assert '@' !in user by {
      assert user == ['g', 'i', 't'];
    }
    forall k | 0 <= k < |host| ensures IsHostChar(host[k]) {
      assert host == ['e', 'x', 'a', 'm', 'p', 'l', 'e', '.', 'o', 'r', 'g'];
    }
    assert '\n' !in path by {
      forall k | 0 <= k < |path| ensures path[k] != '\n' {
        assert path == ['g', 'r', 'o', 'u', 'p', '/', 'p', 'r', 'o', 'j', 'e', 'c', 't', '.', 'g', 'i', 't'];
      }
    }
  }
}
