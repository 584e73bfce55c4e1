/**
 * The data of the remote-provider resolution engine: the provider kinds, the
 * rule records with their matchers and creators, the user and integration
 * configuration records, and the fixed tables (built-in rules, cloud
 * integration map, provider-type tags).
 */
module RemoteProviders {
  import opened Wrappers

  /** The provider classes a rule can construct. */
  datatype ProviderKind =
    | AzureDevOps | Bitbucket | BitbucketServer | Custom | Gerrit
    | GoogleSource | Gitea | GitHub | GitLab

  /**
   * What a creator closure captures: the provider class to construct and the
   * extra constructor arguments it passes after `(domain, path)`.
   * `flag` is the fifth positional argument: the `custom` switch for most
   * classes, the legacy switch for Azure DevOps (set by the built-in
   * visualstudio.com rule); `None` means the argument is not passed. `urls` is the template
   * list handed to the Custom class, passed through as configured.
   */
  datatype Creator = Creator(
    kind: ProviderKind,
    protocol: Option<string>,
    name: Option<string>,
    flag: Option<bool>,
    urls: Option<seq<string>>)

  /**
   * The provider object a creator yields. Provider classes are opaque here:
   * a handle records the creator and the domain and path it was called with
   * (a regex capture group that did not participate is `None`).
   */
  datatype Handle = Handle(creator: Creator, domain: Option<string>, path: Option<string>)

  /**
   * A rule's matcher: an exact lower-case domain, a case-insensitive regular
   * expression (identified by its source text), or the undefined matcher that
   * a user entry without a usable regex or domain leaves behind.
   */
  datatype Matcher = Exact(s: string) | Pattern(source: string) | Missing

  /** One entry of the ordered rule list. */
  datatype Rule = Rule(custom: bool, matcher: Matcher, creator: Creator)

  /** One user `remotes` configuration entry. */
  datatype RemoteConfig = RemoteConfig(
    providerType: string,
    domain: Option<string>,
    regex: Option<string>,
    protocol: Option<string>,
    name: Option<string>,
    urls: Option<seq<string>>)

  /** Integration identifiers: the three cloud self-hosted ones, and any other. */
  datatype IntegrationId =
    | CloudGitHubEnterprise | CloudGitLabSelfHosted | BitbucketServerSelfHosted
    | OtherIntegration(id: string)

  /** A configured integration as reported by the integration service. */
  datatype IntegrationDescriptor = IntegrationDescriptor(integrationId: IntegrationId, domain: Option<string>)

  /** The groups 1 and 2 of a successful `exec`. */
  datatype Captures = Captures(group1: Option<string>, group2: Option<string>)

  /**
   * The ECMAScript regular-expression engine, left uninterpreted. Every
   * pattern in this engine carries the `i` flag.
   * `compiles(src)`: `new RegExp(src, 'i')` does not throw;
   * `test(src, input)`: the compiled pattern's `test`;
   * `exec(src, input)`: the compiled pattern's `exec`, with its groups 1 and 2.
   */
  datatype RegexEngine = RegexEngine(
    compiles: string -> bool,
    test: (string, string) -> bool,
    exec: (string, string) -> Option<Captures>)

  // ---------------------------------------------------------------------
  // Lower-casing (both `toLowerCase` and `toLocaleLowerCase`)

  function LowerChar(c: char): char {
    if 'A' <= c <= 'Z' then (c as int + 32) as char else c
  }

  /** The string with every ASCII capital replaced by its small letter. */
  function Lower(s: string): (r: string)
    ensures |r| == |s|
    ensures forall i :: 0 <= i < |s| ==> r[i] == LowerChar(s[i])
  {
    if s == [] then [] else [LowerChar(s[0])] + Lower(s[1..])
  }

  /** Lower-casing twice is lower-casing once: a lower-cased domain is its own key. */
  lemma LowerIdempotent(s: string)
    ensures Lower(Lower(s)) == Lower(s)
  {
  }

  /** Lower-casing leaves a string without capitals unchanged. */
  lemma LowerOfLowerCase(s: string)
    requires forall i :: 0 <= i < |s| ==> !('A' <= s[i] <= 'Z')
    ensures Lower(s) == s
  {
  }

  // ---------------------------------------------------------------------
  // Fixed tables

  /** A creator that passes only `(domain, path)`. */
  function Plain(kind: ProviderKind): Creator {
    Creator(kind, None, None, None, None)
  }

  /** The built-in rules, in their fixed order. */
  const BuiltInProviders: seq<Rule> := [
    Rule(false, Exact("bitbucket.org"), Plain(Bitbucket)),
    Rule(false, Exact("github.com"), Plain(GitHub)),
    Rule(false, Exact("gitlab.com"), Plain(GitLab)),
    Rule(false, Pattern(@"\bdev\.azure\.com$"), Plain(AzureDevOps)),
    Rule(true, Pattern(@"^(.+\/(?:bitbucket|stash))\/scm\/(.+)$"), Plain(BitbucketServer)),
    Rule(false, Pattern(@"\bgitlab\b"), Plain(GitLab)),
    Rule(false, Pattern(@"\bvisualstudio\.com$"), Creator(AzureDevOps, None, None, Some(true), None)),
    Rule(false, Pattern(@"\bgitea\b"), Plain(Gitea)),
    Rule(false, Pattern(@"\bgerrithub\.io$"), Plain(Gerrit)),
    Rule(false, Pattern(@"\bgooglesource\.com$"), Plain(GoogleSource))
  ]

  /**
   * The shape of the built-in table: ten rules, the three exact domains
   * first, every other matcher a regex; only the Bitbucket Server rule is
   * custom (so only it falls back to the full URL); only the visualstudio.com
   * rule passes more than `(domain, path)`, its fifth argument set.
   */
  lemma BuiltInTable()
    ensures |BuiltInProviders| == 10
    ensures BuiltInProviders[0].matcher == Exact("bitbucket.org") && BuiltInProviders[0].creator.kind == Bitbucket
    ensures BuiltInProviders[1].matcher == Exact("github.com") && BuiltInProviders[1].creator.kind == GitHub
    ensures BuiltInProviders[2].matcher == Exact("gitlab.com") && BuiltInProviders[2].creator.kind == GitLab
    ensures forall k :: 3 <= k < |BuiltInProviders| ==> BuiltInProviders[k].matcher.Pattern?
    ensures forall k :: 0 <= k < |BuiltInProviders| ==> (BuiltInProviders[k].custom <==> k == 4)
    ensures forall k :: 0 <= k < |BuiltInProviders| && k != 6 ==> BuiltInProviders[k].creator == Plain(BuiltInProviders[k].creator.kind)
    ensures BuiltInProviders[4].creator.kind == BitbucketServer
    ensures BuiltInProviders[6].creator == Creator(AzureDevOps, None, None, Some(true), None)
  {
  }

  /**
   * The provider class of a cloud self-hosted integration; `None` for an id
   * outside the cloud self-hosted set.
   */
  function CloudKind(id: IntegrationId): (k: Option<ProviderKind>)
    ensures k.Some? <==> !id.OtherIntegration?
    ensures id == CloudGitHubEnterprise ==> k == Some(GitHub)
    ensures id == CloudGitLabSelfHosted ==> k == Some(GitLab)
    ensures id == BitbucketServerSelfHosted ==> k == Some(BitbucketServer)
  {
    match id
    case CloudGitHubEnterprise => Some(GitHub)
    case CloudGitLabSelfHosted => Some(GitLab)
    case BitbucketServerSelfHosted => Some(BitbucketServer)
    case OtherIntegration(_) => None
  }

  /** The configuration `type` tag that names a provider kind. */
  function TagOf(kind: ProviderKind): string {
    match kind
    case AzureDevOps => "AzureDevOps"
    case Bitbucket => "Bitbucket"
    case BitbucketServer => "BitbucketServer"
    case Custom => "Custom"
    case Gerrit => "Gerrit"
    case GoogleSource => "GoogleSource"
    case Gitea => "Gitea"
    case GitHub => "GitHub"
    case GitLab => "GitLab"
  }

  /** The provider kind a `type` tag names, if it is one of the nine known tags. */
  function KindOfTag(tag: string): (k: Option<ProviderKind>)
    ensures k.Some? ==> TagOf(k.value) == tag
  {
    if tag == "AzureDevOps" then Some(AzureDevOps)
    else if tag == "Bitbucket" then Some(Bitbucket)
    else if tag == "BitbucketServer" then Some(BitbucketServer)
    else if tag == "Custom" then Some(Custom)
    else if tag == "Gerrit" then Some(Gerrit)
    else if tag == "GoogleSource" then Some(GoogleSource)
    else if tag == "Gitea" then Some(Gitea)
    else if tag == "GitHub" then Some(GitHub)
    else if tag == "GitLab" then Some(GitLab)
    else None
  }

  /** Every known tag is recognised, so no kind is unreachable from configuration. */
  lemma TagRoundTrip(kind: ProviderKind)
    ensures KindOfTag(TagOf(kind)) == Some(kind)
  {
  }

  /**
   * The creator for a user entry: unknown tags yield none; the Custom class
   * gets the URL templates, protocol and name; every other class gets the
   * protocol, the name and `true` as its fifth argument (the custom flag for
   * most classes, the legacy switch for Azure DevOps).
   */
  function GetCustomProviderCreator(rc: RemoteConfig): (c: Option<Creator>)
    ensures c.Some? <==> KindOfTag(rc.providerType).Some?
    ensures c.Some? ==> c.value.kind == KindOfTag(rc.providerType).value
    ensures c.Some? ==> c.value.protocol == rc.protocol && c.value.name == rc.name
    ensures c.Some? && c.value.kind == Custom ==> c.value.urls == rc.urls && c.value.flag == None
    ensures c.Some? && c.value.kind != Custom ==> c.value.urls == None && c.value.flag == Some(true)
  {
    match KindOfTag(rc.providerType)
    case None => None
    case Some(Custom) => Some(Creator(Custom, rc.protocol, rc.name, None, rc.urls))
    case Some(kind) => Some(Creator(kind, rc.protocol, rc.name, Some(true), None))
  }
}
