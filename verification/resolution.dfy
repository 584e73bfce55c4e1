/**
 * Resolving one remote against the ordered rule list
 * (`createBestRemoteProvider`) and the matcher function bound to a rule list
 * (`getRemoteProviderMatcher`).
 */
module Resolution {
  import opened Wrappers
  import opened RemoteProviders
  import opened RuleSet

  /** How one rule reacts to a remote. */
  datatype Verdict =
    | Pass                        // the rule does not accept: go on to the next one
    | Broken                      // `test` called on the undefined matcher throws
    | OnDomain                    // accepted on the lower-cased domain
    | OnUrl(captures: Captures)   // a custom regex rule accepted on the full URL

  /** The result of resolving one remote: a handle, nothing, or a caught exception. */
  datatype Outcome = Found(handle: Handle) | NotFound | Failed {

    /** What the caller receives: the handle, or `undefined`. */
    function Provider(): Option<Handle> {
      if Found? then Some(handle) else None
    }
  }

  /** Whether a provider constructor throws when called with the given creator, domain and path. */
  type CreatorFails = (Creator, Option<string>, Option<string>) -> bool

  /**
   * One rule against a remote whose lower-cased domain is `key`. An exact
   * matcher accepts iff it equals the key and never looks at the URL; a
   * regex is tested on the key; only when that fails and the rule is custom
   * is the regex run on the full URL.
   */
  function Judge(re: RegexEngine, rule: Rule, url: string, key: string): (v: Verdict)
    ensures v == Broken <==> rule.matcher.Missing?
    ensures rule.matcher.Exact? ==> (v == OnDomain <==> rule.matcher.s == key) && !v.OnUrl?
    ensures rule.matcher.Pattern? ==> (v == OnDomain <==> re.test(rule.matcher.source, key))
    ensures v.OnUrl? ==>
      && rule.custom && rule.matcher.Pattern?
      && !re.test(rule.matcher.source, key)
      && re.exec(rule.matcher.source, url) == Some(v.captures)
    ensures
      && rule.custom && rule.matcher.Pattern? && !re.test(rule.matcher.source, key)
      && re.exec(rule.matcher.source, url).Some?
      ==> v == OnUrl(re.exec(rule.matcher.source, url).value)
  {
    match rule.matcher
    case Missing => Broken
    case Exact(s) => if s == key then OnDomain else Pass
    case Pattern(source) =>
      if re.test(source, key) then OnDomain
      else if !rule.custom then Pass
      else
        match re.exec(source, url)
        case Some(captures) => OnUrl(captures)
        case None => Pass
  }

  /** Calling a creator: the handle it records, or a caught failure when the constructor throws. */
  function Invoke(fails: CreatorFails, creator: Creator, domain: Option<string>, path: Option<string>): (o: Outcome)
    ensures o.Failed? <==> fails(creator, domain, path)
    ensures !o.Failed? ==> o == Found(Handle(creator, domain, path))
  {
    if fails(creator, domain, path) then Failed else Found(Handle(creator, domain, path))
  }

  /**
   * What an accepting (or broken) rule returns: its creator is called with the
   * original domain and path, or with capture groups 1 and 2 of the URL.
   */
  function Fire(fails: CreatorFails, rule: Rule, v: Verdict, domain: string, path: string): (o: Outcome)
    requires v != Pass
    ensures !o.NotFound?
    ensures v == Broken ==> o == Failed
    ensures v == OnDomain ==> (o.Failed? <==> fails(rule.creator, Some(domain), Some(path)))
    ensures v == OnDomain && o.Found? ==> o.handle == Handle(rule.creator, Some(domain), Some(path))
    ensures v.OnUrl? ==> (o.Failed? <==> fails(rule.creator, v.captures.group1, v.captures.group2))
    ensures v.OnUrl? && o.Found? ==> o.handle == Handle(rule.creator, v.captures.group1, v.captures.group2)
  {
    match v
    case Broken => Failed
    case OnDomain => Invoke(fails, rule.creator, Some(domain), Some(path))
    case OnUrl(captures) => Invoke(fails, rule.creator, captures.group1, captures.group2)
  }

  /**
   * The rules tried in order; the first that does not pass decides. Nothing
   * is found exactly when every rule passes, and a found handle comes from a
   * rule that accepted.
   */
  function Scan(re: RegexEngine, fails: CreatorFails, rules: seq<Rule>, url: string, key: string, domain: string, path: string): (o: Outcome)
    ensures o.NotFound? <==> forall k :: 0 <= k < |rules| ==> Judge(re, rules[k], url, key) == Pass
    ensures o.Found? ==> exists k :: 0 <= k < |rules| && rules[k].creator == o.handle.creator && Judge(re, rules[k], url, key) != Pass
    decreases |rules|
  {
    if rules == [] then NotFound
    else
      var v := Judge(re, rules[0], url, key);
      if v == Pass then
        var o := Scan(re, fails, rules[1..], url, key, domain, path);
        assert forall k :: 1 <= k < |rules| ==> rules[1..][k - 1] == rules[k];
        o
      else
        Fire(fails, rules[0], v, domain, path)
  }

  /** `createBestRemoteProvider` as a value: the domain is lower-cased once into the key. */
  function BestRemoteProvider(re: RegexEngine, fails: CreatorFails, rules: seq<Rule>, url: string, domain: string, path: string): (o: Outcome)
    ensures o.NotFound? <==> forall k :: 0 <= k < |rules| ==> Judge(re, rules[k], url, Lower(domain)) == Pass
    ensures o.Found? ==> exists k :: 0 <= k < |rules| && rules[k].creator == o.handle.creator && Judge(re, rules[k], url, Lower(domain)) != Pass
  {
    Scan(re, fails, rules, url, Lower(domain), domain, path)
  }

  /**
   * `createBestRemoteProvider`: the loop over the rules with early returns.
   * `logged` says whether the catch block logged an exception (a broken
   * rule reached, or a throwing constructor); no rule accepting is not an
   * error and logs nothing.
   */
  method CreateBestRemoteProvider(re: RegexEngine, fails: CreatorFails, providers: seq<Rule>, url: string, domain: string, path: string)
    returns (provider: Option<Handle>, logged: bool)
    ensures provider == BestRemoteProvider(re, fails, providers, url, domain, path).Provider()
    ensures logged <==> BestRemoteProvider(re, fails, providers, url, domain, path).Failed?
    ensures provider.None? && !logged <==> forall k :: 0 <= k < |providers| ==> Judge(re, providers[k], url, Lower(domain)) == Pass
  {
    var key := Lower(domain);
    var i := 0;
    while i < |providers|
      invariant 0 <= i <= |providers|
      invariant Scan(re, fails, providers, url, key, domain, path) == Scan(re, fails, providers[i..], url, key, domain, path)
    {
      var rule := providers[i];
      assert providers[i..][0] == rule && providers[i..][1..] == providers[i + 1..];
      match rule.matcher {
        case Missing =>
          // `matcher.test` on the undefined matcher throws; the catch logs it
          return None, true;
        case Exact(s) =>
          if s == key {
            var o := Invoke(fails, rule.creator, Some(domain), Some(path));
            return o.Provider(), o.Failed?;
          }
        case Pattern(source) =>
          if re.test(source, key) {
            var o := Invoke(fails, rule.creator, Some(domain), Some(path));
            return o.Provider(), o.Failed?;
          }
          if rule.custom {
            var captured := re.exec(source, url);
            if captured.Some? {
              var o := Invoke(fails, rule.creator, captured.value.group1, captured.value.group2);
              return o.Provider(), o.Failed?;
            }
          }
      }
      i := i + 1;
    }
    return None, false;
  }

  /**
   * `getRemoteProviderMatcher`: a function bound to the given rule list, or,
   * when none is given, to the list loaded from the given configuration; the
   * list is built once and every call resolves against it.
   */
  function GetRemoteProviderMatcher(
    re: RegexEngine, fails: CreatorFails, providers: Option<seq<Rule>>,
    cfg: Option<seq<RemoteConfig>>, cis: Option<seq<IntegrationDescriptor>>): (matcher: (string, string, string) -> Option<Handle>)
    ensures providers.Some? ==> forall url, domain, path ::
      matcher(url, domain, path) == BestRemoteProvider(re, fails, providers.value, url, domain, path).Provider()
    ensures providers.None? ==> forall url, domain, path ::
      matcher(url, domain, path) == BestRemoteProvider(re, fails, LoadSpec(re, cfg, cis), url, domain, path).Provider()
  {
    var rules := if providers.Some? then providers.value else LoadSpec(re, cfg, cis);
    (url: string, domain: string, path: string) => BestRemoteProvider(re, fails, rules, url, domain, path).Provider()
  }

  // ---------------------------------------------------------------------
  // Order: the first deciding rule wins

  /** Rules earlier in the list shadow later ones: a list decides as its first part does, unless that finds nothing. */
  lemma {:induction false} ScanConcat(re: RegexEngine, fails: CreatorFails, a: seq<Rule>, b: seq<Rule>, url: string, key: string, domain: string, path: string)
    ensures Scan(re, fails, a + b, url, key, domain, path) ==
      if Scan(re, fails, a, url, key, domain, path).NotFound? then Scan(re, fails, b, url, key, domain, path)
      else Scan(re, fails, a, url, key, domain, path)
    decreases |a|
  {
    if a == [] {
      assert a + b == b;
    } else {
      assert (a + b)[0] == a[0];
      assert (a + b)[1..] == a[1..] + b;
      ScanConcat(re, fails, a[1..], b, url, key, domain, path);
    }
  }

  /** First match wins: the result is what the first non-passing rule yields, whatever follows it. */
  lemma ScanFirstMatchWins(re: RegexEngine, fails: CreatorFails, rules: seq<Rule>, i: nat, url: string, key: string, domain: string, path: string)
    requires i < |rules|
    requires forall j :: 0 <= j < i ==> Judge(re, rules[j], url, key) == Pass
    requires Judge(re, rules[i], url, key) != Pass
    ensures Scan(re, fails, rules, url, key, domain, path) == Fire(fails, rules[i], Judge(re, rules[i], url, key), domain, path)
  {
    assert rules == rules[..i] + rules[i..];
    assert Scan(re, fails, rules[..i], url, key, domain, path).NotFound?;
    ScanConcat(re, fails, rules[..i], rules[i..], url, key, domain, path);
    assert rules[i..][0] == rules[i];
  }

  /** First match wins, for a remote: the rules are judged on the lower-cased domain. */
  lemma FirstMatchWins(re: RegexEngine, fails: CreatorFails, rules: seq<Rule>, i: nat, url: string, domain: string, path: string)
    requires i < |rules|
    requires forall j :: 0 <= j < i ==> Judge(re, rules[j], url, Lower(domain)) == Pass
    requires Judge(re, rules[i], url, Lower(domain)) != Pass
    ensures BestRemoteProvider(re, fails, rules, url, domain, path) ==
      Fire(fails, rules[i], Judge(re, rules[i], url, Lower(domain)), domain, path)
  {
    ScanFirstMatchWins(re, fails, rules, i, url, Lower(domain), domain, path);
  }

  /** A rule with the undefined matcher that is reached makes the whole resolution fail, hiding every later rule. */
  lemma BrokenRuleHidesLater(re: RegexEngine, fails: CreatorFails, before: seq<Rule>, broken: Rule, after: seq<Rule>, url: string, domain: string, path: string)
    requires broken.matcher.Missing?
    requires BestRemoteProvider(re, fails, before, url, domain, path).NotFound?
    ensures BestRemoteProvider(re, fails, before + [broken] + after, url, domain, path) == Failed
  {
    var key := Lower(domain);
    ScanConcat(re, fails, before, [broken] + after, url, key, domain, path);
    assert before + [broken] + after == before + ([broken] + after);
  }

  // ---------------------------------------------------------------------
  // Case of the domain

  /**
   * With the key fixed, the domain handed to the creators changes neither
   * whether nothing is found nor, when both searches find a provider, its
   * creator and path.
   */
  lemma {:induction false} ScanSameKey(re: RegexEngine, fails: CreatorFails, rules: seq<Rule>, url: string, key: string, d1: string, d2: string, path: string)
    ensures Scan(re, fails, rules, url, key, d1, path).NotFound? <==> Scan(re, fails, rules, url, key, d2, path).NotFound?
    ensures var o1, o2 := Scan(re, fails, rules, url, key, d1, path), Scan(re, fails, rules, url, key, d2, path);
      o1.Found? && o2.Found? ==> o1.handle.creator == o2.handle.creator && o1.handle.path == o2.handle.path
    decreases |rules|
  {
    if rules != [] && Judge(re, rules[0], url, key) == Pass {
      ScanSameKey(re, fails, rules[1..], url, key, d1, d2, path);
    }
  }

  /**
   * Domains that differ only in case resolve alike: nothing is found for
   * both or for neither, and found handles share creator and path (the
   * creator still receives each original domain).
   */
  lemma CaseInsensitive(re: RegexEngine, fails: CreatorFails, rules: seq<Rule>, url: string, d1: string, d2: string, path: string)
    requires Lower(d1) == Lower(d2)
    ensures BestRemoteProvider(re, fails, rules, url, d1, path).NotFound? <==> BestRemoteProvider(re, fails, rules, url, d2, path).NotFound?
    ensures var o1, o2 := BestRemoteProvider(re, fails, rules, url, d1, path), BestRemoteProvider(re, fails, rules, url, d2, path);
      o1.Found? && o2.Found? ==> o1.handle.creator == o2.handle.creator && o1.handle.path == o2.handle.path
  {
    ScanSameKey(re, fails, rules, url, Lower(d1), d1, d2, path);
  }

  // ---------------------------------------------------------------------
  // The loaded list

  /**
   * Built-in rules are reached only when no user or integration rule
   * decides: the loaded list resolves as its configured part does, and
   * falls through to the built-in table only when that finds nothing.
   */
  lemma ConfiguredShadowsBuiltIns(re: RegexEngine, fails: CreatorFails, cfg: Option<seq<RemoteConfig>>, cis: Option<seq<IntegrationDescriptor>>, url: string, domain: string, path: string)
    ensures var configured := Integrate(UserRules(re, cfg.GetOr([])), cis.GetOr([]));
      BestRemoteProvider(re, fails, LoadSpec(re, cfg, cis), url, domain, path) ==
        if BestRemoteProvider(re, fails, configured, url, domain, path).NotFound? then BestRemoteProvider(re, fails, BuiltInProviders, url, domain, path)
        else BestRemoteProvider(re, fails, configured, url, domain, path)
  {
    var configured := Integrate(UserRules(re, cfg.GetOr([])), cis.GetOr([]));
    ScanConcat(re, fails, configured, BuiltInProviders, url, Lower(domain), domain, path);
  }

  /**
   * A first user entry with a known type but no usable matcher (no regex and
   * no domain, or a regex that does not compile) makes every resolution
   * against the loaded list fail: integrations never replace it and it
   * comes before every other rule.
   */
  lemma BrokenFirstEntryFailsEverything(re: RegexEngine, fails: CreatorFails, cfg: Option<seq<RemoteConfig>>, cis: Option<seq<IntegrationDescriptor>>, url: string, domain: string, path: string)
    requires |UserRules(re, cfg.GetOr([]))| > 0 && UserRules(re, cfg.GetOr([]))[0].matcher.Missing?
    ensures BestRemoteProvider(re, fails, LoadSpec(re, cfg, cis), url, domain, path) == Failed
  {
    var user := UserRules(re, cfg.GetOr([]));
    IntegrateShape(user, cis.GetOr([]));
    assert LoadSpec(re, cfg, cis)[0] == user[0];
  }
}
