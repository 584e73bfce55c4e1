# Remote-provider resolution, modelled in Dafny

This project models the remote-provider resolution engine of GitLens
(`src/git/remotes/remoteProviders.ts`). Given a git remote's URL, domain and
repository path, the engine decides which hosting provider understands the
remote and constructs a provider object for it. It has two halves:

- **Loading the rule list** (`loadRemoteProviders`). The list is built in a
  fixed order. First come the user's `remotes` configuration entries, one
  rule per entry whose `type` is known, always flagged custom. Next come the
  configured cloud self-hosted integrations (GitHub Enterprise cloud, GitLab
  self-hosted cloud, Bitbucket Server). Each of these overwrites, in place,
  the first rule whose matcher is the identical lower-cased domain string, or
  is appended. Last come the ten built-in rules.
- **Resolving a remote** (`createBestRemoteProvider`). This is a first-match
  search over the list using the lower-cased domain. An exact string must
  equal it. A regex is tested on it. A custom regex rule may also run `exec`
  on the full URL, and then capture groups 1 and 2 become the domain and
  path. Any exception is caught, logged and turned into "no provider".
  `getRemoteProviderMatcher` binds this search to one rule list.

Files and modules:

- `wrappers.dfy` (`Wrappers`): the `Option` type, used for `undefined`.
- `providers.dfy` (`RemoteProviders`): the data model. It holds provider
  kinds, creators, matchers, rules and configuration records, the ASCII
  lower-casing, the built-in table, the cloud-integration map and the
  `type`-tag switch (`getCustomProviderCreator`).
- `rule_set.dfy` (`RuleSet`): loading. It has specification functions
  (`UserRules`, `IntegrateOne`, `Integrate`, `LoadSpec`), their lemmas, and
  the imperative `LoadRemoteProviders`, proved equal to `LoadSpec`. Its two
  loops are the methods `PushUserRules` and `ApplyIntegrations`. The first
  grows a sequence with pushes. The second overwrites one element in place or
  pushes. The `try` block that builds a user matcher is `BuildUserMatcher`.
- `resolution.dfy` (`Resolution`): resolution. `Judge` gives one rule's
  verdict and `Scan` is the ordered search that specifies the loop. The loop
  itself is the method `CreateBestRemoteProvider`. The file also holds the
  `GetRemoteProviderMatcher` closure and the ordering, shadowing and
  case-insensitivity lemmas.
- `examples.dfy` (`ResolutionExamples`): concrete resolutions against the
  built-in table.

Things the source calls but does not show are parameters of the model:

- The ECMAScript regular-expression engine is a `RegexEngine` value. It says
  whether a pattern compiles, what `test` answers and what `exec` captures.
- Whether a provider constructor throws is a `CreatorFails` predicate.
- The provider classes are opaque. A `Handle` records the creator and the
  domain and path it was called with.
- The configuration and the list of configured integrations are passed in.

Behaviour the model keeps as the code has it:

- A user entry with a known `type` but no usable matcher is still pushed. This
  covers an entry with neither `regex` nor `domain`, and one whose regex does
  not compile. The rule is pushed with an undefined matcher (`Missing`) after
  the error is logged. When resolution reaches that rule, `test` throws, the
  catch block logs it, and the result is "no provider". So the broken rule
  hides every rule after it (`BrokenRuleHidesLater`,
  `BrokenFirstEntryFailsEverything`). Such an entry is not skipped.
- The duplicate check for an integration scans every rule built so far. This
  includes rules appended by earlier integrations, and only the first equal
  rule is replaced (`LastIntegrationWins`, `IntegrateShape`).
- An unknown `type` tag is skipped without logging. Only a missing matcher
  is logged, and `errors` in `LoadRemoteProviders` counts exactly those.
- The URL fallback passes capture groups 1 and 2 unvalidated. A group that
  did not participate is passed as `undefined` (`None`).

## Model

| member | source | states |
|---|---|---|
| RemoteProviders.Lower | src/git/remotes/remoteProviders.ts:202 | lower-casing keeps the length and maps each character to its small letter (ASCII) |
| RemoteProviders.LowerIdempotent | src/git/remotes/remoteProviders.ts:102 | a lower-cased domain lower-cases to itself, so a user's exact matcher can equal a lower-cased key |
| RemoteProviders.LowerOfLowerCase | src/git/remotes/remoteProviders.ts:202 | a domain without capitals is its own key |
| RemoteProviders.BuiltInTable | src/git/remotes/remoteProviders.ts:26-78 | the built-in table `BuiltInProviders` has ten rules: the exact bitbucket.org, github.com and gitlab.com first, regexes after; only the Bitbucket Server rule is custom; only the visualstudio.com rule passes a fifth argument (`true`) |
| RemoteProviders.CloudKind | src/git/remotes/remoteProviders.ts:80-87 | exactly the three cloud self-hosted ids have a provider class: GitHub Enterprise maps to GitHub, GitLab self-hosted to GitLab, Bitbucket Server to Bitbucket Server |
| RemoteProviders.KindOfTag | src/git/remotes/remoteProviders.ts:145-176 | a recognised `type` tag is the tag of the kind it yields |
| RemoteProviders.TagRoundTrip | src/git/remotes/remoteProviders.ts:146-173 | each of the nine kinds is reached from its own tag |
| RemoteProviders.GetCustomProviderCreator | src/git/remotes/remoteProviders.ts:145-176 | a creator exists iff the tag is known; it passes protocol and name through; Custom gets the configured URL list and no flag; every other class gets `true` as its fifth argument (the custom flag for most classes, the legacy switch for Azure DevOps) |
| RuleSet.UserMatcher | src/git/remotes/remoteProviders.ts:100-106 | a non-empty regex takes precedence and yields that pattern iff it compiles; otherwise a present domain yields its lower-cased exact matcher; an exact matcher is already lower-case |
| RuleSet.UserRule | src/git/remotes/remoteProviders.ts:97-112 | an entry yields a rule iff its tag is known; the rule is custom, of the tagged class, and an entry with no regex but a domain is matched by the lower-cased domain |
| RuleSet.UserRules | src/git/remotes/remoteProviders.ts:95-113 | at most one rule per entry, every user rule custom, every exact matcher lower-case |
| RuleSet.UserRulesSingle | src/git/remotes/remoteProviders.ts:96-112 | an entry with a known tag adds exactly one custom rule with its matcher and creator, including the undefined matcher; an unknown tag adds none |
| RuleSet.UserRulesConcat | src/git/remotes/remoteProviders.ts:96-113 | user rules keep entry order: the rules of a concatenation are the concatenation of the rules |
| RuleSet.CloudRule | src/git/remotes/remoteProviders.ts:117-127 | a rule exists iff the id is cloud self-hosted and the domain is non-empty; it is non-custom, its matcher is the lower-cased domain, and its creator is the mapped class called with `(domain, path)` only |
| RuleSet.FindIndex | src/git/remotes/remoteProviders.ts:129 | the first index whose matcher is the identical string, or -1 when none is |
| RuleSet.IntegrateOne | src/git/remotes/remoteProviders.ts:117-136 | one integration keeps every index's matcher, never touches a regex or undefined matcher, writes only its own rule, and appends only when no rule has the same matcher |
| RuleSet.OverrideReplacesFirst | src/git/remotes/remoteProviders.ts:129-132 | with a rule of the identical matcher, exactly the first such rule is overwritten in place |
| RuleSet.AppendWhenNoDuplicate | src/git/remotes/remoteProviders.ts:129-135 | with no rule of the identical matcher, the integration rule is appended |
| RuleSet.Integrate | src/git/remotes/remoteProviders.ts:116-138 | integrations grow the list by at most one rule each |
| RuleSet.IntegrateShape | src/git/remotes/remoteProviders.ts:116-138 | after all integrations, earlier indices keep their matchers, regex and undefined rules are untouched, appended rules are non-custom exact rules, and no appended matcher repeats an earlier one |
| RuleSet.LastIntegrationWins | src/git/remotes/remoteProviders.ts:117-137 | the last integration for a domain is the first rule with that exact matcher, whether it overwrote a user rule, an earlier integration or was appended |
| RuleSet.LoadSpec | src/git/remotes/remoteProviders.ts:89-143 | the loaded list ends with the built-in table and holds at most one rule per user entry and per integration before it |
| RuleSet.BuiltInsHaveMatchers | src/git/remotes/remoteProviders.ts:26-78 | no built-in rule has the undefined matcher |
| RuleSet.IntegrateCountMissing | src/git/remotes/remoteProviders.ts:116-138 | integrations neither add nor remove an undefined matcher |
| RuleSet.BuildUserMatcher | src/git/remotes/remoteProviders.ts:100-106 | the catch logs iff a non-empty regex does not compile or there is neither a regex nor a domain, and the matcher is then undefined; a compiling non-empty regex becomes the matcher; with no regex, the lower-cased domain does |
| RuleSet.PushUserRules | src/git/remotes/remoteProviders.ts:95-114 | the first loop pushes exactly the user rules and logs once per rule with an undefined matcher |
| RuleSet.ApplyIntegrations | src/git/remotes/remoteProviders.ts:116-138 | the second loop, with its in-place overwrite, yields the integrated list and keeps the count of undefined matchers |
| RuleSet.LoadRemoteProviders | src/git/remotes/remoteProviders.ts:89-143 | the loaded list is user rules, then integrations, then built-ins; it ends with the ten built-in rules in table order; the logged errors equal the rules with an undefined matcher |
| RuleSet.IntegrationOverridesUserEntry | src/git/remotes/remoteProviders.ts:95-140 | a domain entry plus an integration on the same domain, in any case, loads as the integration's rule followed by the built-ins |
| RuleSet.LoadErrorsAreBrokenRules | src/git/remotes/remoteProviders.ts:100-140 | the loaded list has as many undefined matchers as the user rules, so the logged load errors count them |
| RuleSet.BrokenRulesAreUserRules | src/git/remotes/remoteProviders.ts:100-140 | each user rule with an undefined matcher stays unchanged at its index in the loaded list, and no integration or built-in rule has the undefined matcher |
| RuleSet.MissingStayInPlace | src/git/remotes/remoteProviders.ts:116-140 | integrating and appending the built-ins keeps every undefined-matcher rule at its index and adds none |
| Resolution.Judge | src/git/remotes/remoteProviders.ts:204-216 | exact matchers accept iff equal to the key and never use the URL; patterns accept on the key iff `test` does; the URL `exec` fallback is taken exactly when a custom pattern rule's domain test fails and `exec` matches, yielding its captures; only the undefined matcher breaks |
| Resolution.Invoke | src/git/remotes/remoteProviders.ts:205 | a creator call fails iff the constructor throws, and otherwise yields a provider built from that creator, domain and path |
| Resolution.Fire | src/git/remotes/remoteProviders.ts:205-215 | an accepting rule never yields "not found"; a broken one fails; a domain match calls the creator with the original domain and path, a URL match with capture groups 1 and 2 |
| Resolution.Scan | src/git/remotes/remoteProviders.ts:203-219 | nothing is found iff every rule passes; a found handle comes from a rule that accepted |
| Resolution.CreateBestRemoteProvider | src/git/remotes/remoteProviders.ts:194-225 | the loop returns what the ordered search yields; it logs iff the search failed; it returns `undefined` without logging iff every rule passes: none accepts on the lower-cased domain or, for a custom regex, on the URL, and none has the undefined matcher |
| Resolution.BestRemoteProvider | src/git/remotes/remoteProviders.ts:201-219 | nothing is found iff every rule passes on the lower-cased domain; a found provider comes from a rule that accepted it |
| Resolution.GetRemoteProviderMatcher | src/git/remotes/remoteProviders.ts:179-192 | the returned function resolves against the given list, or against the list loaded from the given configuration, on every call |
| Resolution.ScanConcat | src/git/remotes/remoteProviders.ts:203-217 | an earlier part of the list shadows a later one: the later part is consulted only when the earlier finds nothing |
| Resolution.ScanFirstMatchWins | src/git/remotes/remoteProviders.ts:203-217 | the first non-passing rule decides the result, whatever follows |
| Resolution.FirstMatchWins | src/git/remotes/remoteProviders.ts:202-217 | for a remote, the first rule not passing on the lower-cased domain decides |
| Resolution.BrokenRuleHidesLater | src/git/remotes/remoteProviders.ts:210-223 | reaching a rule with the undefined matcher fails the resolution, whatever rules follow |
| Resolution.ScanSameKey | src/git/remotes/remoteProviders.ts:202-215 | with the key fixed, the original domain passed to creators changes neither whether nothing is found nor, when both find a provider, its creator and path |
| Resolution.CaseInsensitive | src/git/remotes/remoteProviders.ts:202-210 | domains that differ only in case both find nothing or neither does; when both find a provider, it has the same creator and path (the constructor sees the original domain, so one spelling may fail where the other succeeds) |
| Resolution.ConfiguredShadowsBuiltIns | src/git/remotes/remoteProviders.ts:140 | a loaded list resolves as its user and integration part does, and falls through to the built-ins only when that part finds nothing |
| Resolution.BrokenFirstEntryFailsEverything | src/git/remotes/remoteProviders.ts:100-112 | a first known user entry without a usable matcher makes every resolution against the loaded list fail |
| ResolutionExamples.GitHubDotComIsGitHub | src/git/remotes/remoteProviders.ts:32-36 | github.com in any case resolves through the built-in exact rule to GitHub with the original domain |
| ResolutionExamples.GitLabDotComIsExact | src/git/remotes/remoteProviders.ts:37-41 | gitlab.com is decided by the exact rule, with no regex consulted |
| ResolutionExamples.GitLabSubdomainFallsThrough | src/git/remotes/remoteProviders.ts:42-56 | my.gitlab.internal falls through to the `\bgitlab\b` rule when the earlier patterns do not match |
| ResolutionExamples.StashUrlRewrite | src/git/remotes/remoteProviders.ts:210-216 | a custom Bitbucket Server pattern that fails on the domain calls its creator with the URL's two capture groups |

## Left out

- `src/views/lineHistoryView.ts` is not part of this model. It holds VS Code view plumbing: command registration, context keys, configuration-change filtering and the " (pinned)" title suffix.
- The asynchronous configuration read in `getRemoteProviderMatcher` is left out. This covers `configuration.get('remotes')` and `container.integrations.getConfigured()`. Both results are parameters of the model.
- `Container` is left out: it is only threaded through to creators.
- Logging is left out except for its occurrence. `Logger.error`, its message text and the `debugger` statement are modelled only as the `errors` count and the `logged` flag.
- `isCloudSelfHostedIntegrationId` and the integration id constants live in files that are not part of this model. The cloud self-hosted set is taken to be the three keys of `cloudRemotesMap`, and every other id is `OtherIntegration`.
- Regular-expression semantics are left out, since ECMAScript patterns (section 22.2 of ECMA-262) are not modelled. Compilation, `test` and `exec` are uninterpreted parameters. The examples state what the patterns they reach answer as preconditions.
- `Lower` models `toLowerCase` and `toLocaleLowerCase` as ASCII lower-casing only. Unicode and locale-specific case mappings are not modelled.
- The provider classes are opaque. A constructor's own work, such as `CustomRemote` using the URL templates, is not modelled. Only whether it throws is, through `CreatorFails`.
- Object identity is not modelled: each call creates a fresh provider object, and handles here are values.
