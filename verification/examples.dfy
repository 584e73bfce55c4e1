/**
 * Concrete resolutions against the built-in table and small configurations.
 * Regular expressions stay uninterpreted: each example states, as a
 * precondition, what the patterns it reaches answer for its remote.
 */
module ResolutionExamples {
  import opened Wrappers
  import opened RemoteProviders
  import opened RuleSet
  import opened Resolution

  /**
   * A remote whose domain is github.com in any letter case is a GitHub
   * remote: the exact rule decides before any regex is consulted, and the
   * creator receives the domain as written.
   */
  lemma GitHubDotComIsGitHub(re: RegexEngine, fails: CreatorFails, url: string, domain: string, path: string)
    requires Lower(domain) == "github.com"
    requires !fails(Plain(GitHub), Some(domain), Some(path))
    ensures BestRemoteProvider(re, fails, BuiltInProviders, url, domain, path) == Found(Handle(Plain(GitHub), Some(domain), Some(path)))
  {
    GitHubKey(re, fails, url, domain, path);
  }

  /** The result for the fixed lower-cased key "github.com", which the example above reuses. */
  lemma GitHubKey(re: RegexEngine, fails: CreatorFails, url: string, domain: string, path: string)
    requires !fails(Plain(GitHub), Some(domain), Some(path))
    ensures Scan(re, fails, BuiltInProviders, url, "github.com", domain, path) == Found(Handle(Plain(GitHub), Some(domain), Some(path)))
  {
    var rules := BuiltInProviders;
    assert Judge(re, rules[0], url, "github.com") == Pass;
    assert Judge(re, rules[1], url, "github.com") == OnDomain;
    ScanFirstMatchWins(re, fails, rules, 1, url, "github.com", domain, path);
  }

  /** gitlab.com is taken by the exact GitLab rule, before the `\bgitlab\b` pattern is tried. */
  lemma GitLabDotComIsExact(re: RegexEngine, fails: CreatorFails, url: string, domain: string, path: string)
    requires Lower(domain) == "gitlab.com"
    requires !fails(Plain(GitLab), Some(domain), Some(path))
    ensures BestRemoteProvider(re, fails, BuiltInProviders, url, domain, path) == Found(Handle(Plain(GitLab), Some(domain), Some(path)))
  {
    GitLabKey(re, fails, url, domain, path);
  }

  /** The result for the fixed lower-cased key "gitlab.com", which the example above reuses. */
  lemma GitLabKey(re: RegexEngine, fails: CreatorFails, url: string, domain: string, path: string)
    requires !fails(Plain(GitLab), Some(domain), Some(path))
    ensures Scan(re, fails, BuiltInProviders, url, "gitlab.com", domain, path) == Found(Handle(Plain(GitLab), Some(domain), Some(path)))
  {
    var key := "gitlab.com";
    var rules := BuiltInProviders;
    assert Judge(re, rules[0], url, key) == Pass;
    assert Judge(re, rules[1], url, key) == Pass;
    assert Judge(re, rules[2], url, key) == OnDomain;
    ScanFirstMatchWins(re, fails, rules, 2, url, key, domain, path);
  }

  /**
   * A self-hosted GitLab domain falls through the exact rules, the Azure
   * DevOps pattern and the Bitbucket Server rule to the `\bgitlab\b` rule.
   */
  lemma GitLabSubdomainFallsThrough(re: RegexEngine, fails: CreatorFails, url: string, domain: string, path: string)
    requires Lower(domain) == "my.gitlab.internal"
    requires !re.test(@"\bdev\.azure\.com$", "my.gitlab.internal")
    requires !re.test(@"^(.+\/(?:bitbucket|stash))\/scm\/(.+)$", "my.gitlab.internal")
    requires re.exec(@"^(.+\/(?:bitbucket|stash))\/scm\/(.+)$", url) == None
    requires re.test(@"\bgitlab\b", "my.gitlab.internal")
    requires !fails(Plain(GitLab), Some(domain), Some(path))
    ensures BestRemoteProvider(re, fails, BuiltInProviders, url, domain, path) == Found(Handle(Plain(GitLab), Some(domain), Some(path)))
  {
    GitLabSubdomainKey(re, fails, url, domain, path);
  }

  /** The result for the fixed lower-cased key "my.gitlab.internal", which the example above reuses. */
  lemma GitLabSubdomainKey(re: RegexEngine, fails: CreatorFails, url: string, domain: string, path: string)
    requires !re.test(@"\bdev\.azure\.com$", "my.gitlab.internal")
    requires !re.test(@"^(.+\/(?:bitbucket|stash))\/scm\/(.+)$", "my.gitlab.internal")
    requires re.exec(@"^(.+\/(?:bitbucket|stash))\/scm\/(.+)$", url) == None
    requires re.test(@"\bgitlab\b", "my.gitlab.internal")
    requires !fails(Plain(GitLab), Some(domain), Some(path))
    ensures Scan(re, fails, BuiltInProviders, url, "my.gitlab.internal", domain, path) == Found(Handle(Plain(GitLab), Some(domain), Some(path)))
  {
    var key := "my.gitlab.internal";
    var rules := BuiltInProviders;
    assert Judge(re, rules[0], url, key) == Pass;
    assert Judge(re, rules[1], url, key) == Pass;
    assert Judge(re, rules[2], url, key) == Pass;
    assert Judge(re, rules[3], url, key) == Pass;
    assert Judge(re, rules[4], url, key) == Pass;
    assert Judge(re, rules[5], url, key) == OnDomain;
    ScanFirstMatchWins(re, fails, rules, 5, url, key, domain, path);
  }

  /**
   * A custom Bitbucket Server rule whose pattern fails on the domain but
   * captures from the URL: the creator is called with the two capture groups.
   */
  lemma StashUrlRewrite(re: RegexEngine, fails: CreatorFails, creator: Creator, rest: seq<Rule>, domain: string, path: string)
    requires !re.test(@"^(.+\/(?:bitbucket|stash))\/scm\/(.+)$", Lower(domain))
    requires re.exec(@"^(.+\/(?:bitbucket|stash))\/scm\/(.+)$", "https://git.example.com/stash/scm/teamA/repo")
      == Some(Captures(Some("https://git.example.com/stash"), Some("teamA/repo")))
    requires !fails(creator, Some("https://git.example.com/stash"), Some("teamA/repo"))
    ensures var rule := Rule(true, Pattern(@"^(.+\/(?:bitbucket|stash))\/scm\/(.+)$"), creator);
      BestRemoteProvider(re, fails, [rule] + rest, "https://git.example.com/stash/scm/teamA/repo", domain, path)
        == Found(Handle(creator, Some("https://git.example.com/stash"), Some("teamA/repo")))
  {
  }
}
