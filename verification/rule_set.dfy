/**
 * Building the ordered rule list (`loadRemoteProviders`): user entries first,
 * then the cloud self-hosted integrations (which may overwrite a user rule
 * with the same exact domain in place), then the built-in rules.
 */
module RuleSet {
  import opened Wrappers
  import opened RemoteProviders

  // ---------------------------------------------------------------------
  // User entries

  /**
   * The matcher built for a user entry: its regex when that is a non-empty
   * string (the undefined matcher when the regex does not compile), else its
   * lower-cased domain, else the undefined matcher.
   */
  function UserMatcher(re: RegexEngine, rc: RemoteConfig): (m: Matcher)
    ensures m.Pattern? ==> rc.regex == Some(m.source) && m.source != "" && re.compiles(m.source)
    ensures m.Exact? ==> rc.domain.Some? && Lower(m.s) == m.s && m.s == Lower(rc.domain.value)
    ensures rc.regex.Some? && rc.regex.value != "" ==> !m.Exact?
    ensures rc.regex.GetOr("") == "" && rc.domain.Some? ==> m.Exact?
    ensures rc.regex.Some? && rc.regex.value != "" && re.compiles(rc.regex.value) ==> m == Pattern(rc.regex.value)
  {
    if rc.regex.Some? && rc.regex.value != "" then
      if re.compiles(rc.regex.value) then Pattern(rc.regex.value) else Missing
    else if rc.domain.Some? then
      LowerIdempotent(rc.domain.value);
      Exact(Lower(rc.domain.value))
    else
      Missing
  }

  /** The rule a user entry contributes, if its `type` tag is known. */
  function UserRule(re: RegexEngine, rc: RemoteConfig): (r: Option<Rule>)
    ensures r.Some? <==> KindOfTag(rc.providerType).Some?
    ensures r.Some? ==> r.value.custom && r.value.creator.kind == KindOfTag(rc.providerType).value
    ensures r.Some? && rc.regex.GetOr("") == "" && rc.domain.Some? ==> r.value.matcher == Exact(Lower(rc.domain.value))
  {
    match GetCustomProviderCreator(rc)
    case None => None
    case Some(creator) => Some(Rule(true, UserMatcher(re, rc), creator))
  }

  /** The rules the user entries contribute, in entry order. */
  function UserRules(re: RegexEngine, entries: seq<RemoteConfig>): (r: seq<Rule>)
    ensures |r| <= |entries|
    ensures forall k :: 0 <= k < |r| ==> r[k].custom
    ensures forall k :: 0 <= k < |r| && r[k].matcher.Exact? ==> Lower(r[k].matcher.s) == r[k].matcher.s
    decreases |entries|
  {
    if entries == [] then []
    else
      var front := UserRules(re, entries[..|entries| - 1]);
      match UserRule(re, entries[|entries| - 1])
      case None => front
      case Some(rule) => front + [rule]
  }

  /** One entry adds one rule when its tag is known and none otherwise. */
  lemma UserRulesSingle(re: RegexEngine, rc: RemoteConfig)
    ensures KindOfTag(rc.providerType).Some? ==>
      UserRules(re, [rc]) == [Rule(true, UserMatcher(re, rc), GetCustomProviderCreator(rc).value)]
    ensures KindOfTag(rc.providerType).None? ==> UserRules(re, [rc]) == []
  {
    assert [rc][..0] == [];
  }

  /** User rules keep the order of the entries: the list of a concatenation is the concatenation of the lists. */
  lemma {:induction false} UserRulesConcat(re: RegexEngine, a: seq<RemoteConfig>, b: seq<RemoteConfig>)
    ensures UserRules(re, a + b) == UserRules(re, a) + UserRules(re, b)
    decreases |b|
  {
    if b == [] {
      assert a + b == a;
    } else {
      var b' := b[..|b| - 1];
      assert (a + b)[..|a + b| - 1] == a + b';
      assert (a + b)[|a + b| - 1] == b[|b| - 1];
      UserRulesConcat(re, a, b');
    }
  }

  /** One more entry of a prefix adds that entry's rule, if any. */
  lemma UserRulesStep(re: RegexEngine, entries: seq<RemoteConfig>, i: nat)
    requires i < |entries|
    ensures UserRules(re, entries[..i + 1]) ==
      match UserRule(re, entries[i])
      case None => UserRules(re, entries[..i])
      case Some(rule) => UserRules(re, entries[..i]) + [rule]
  {
    assert entries[..i + 1][..i] == entries[..i];
  }

  // ---------------------------------------------------------------------
  // Integrations

  /**
   * The rule an integration contributes: only cloud self-hosted ids with a
   * non-empty domain, matched by the lower-cased domain, not custom.
   */
  function CloudRule(ci: IntegrationDescriptor): (r: Option<Rule>)
    ensures r.Some? <==> CloudKind(ci.integrationId).Some? && ci.domain.Some? && ci.domain.value != ""
    ensures r.Some? ==> !r.value.custom && r.value.matcher.Exact? && r.value.matcher.s != ""
    ensures r.Some? ==>
      && r.value.matcher == Exact(Lower(ci.domain.value))
      && r.value.creator == Plain(CloudKind(ci.integrationId).value)
  {
    match CloudKind(ci.integrationId)
    case None => None
    case Some(kind) =>
      if ci.domain.Some? && ci.domain.value != "" then
        Some(Rule(false, Exact(Lower(ci.domain.value)), Plain(kind)))
      else
        None
  }

  /**
   * `findIndex(p => p.matcher === s)`: the first rule whose matcher is the
   * string `s`, or -1. A regex or undefined matcher is never `===` a string.
   */
  function FindIndex(rules: seq<Rule>, s: string): (i: int)
    ensures -1 <= i < |rules|
    ensures 0 <= i ==> rules[i].matcher == Exact(s)
    ensures 0 <= i ==> forall k :: 0 <= k < i ==> rules[k].matcher != Exact(s)
    ensures i == -1 ==> forall k :: 0 <= k < |rules| ==> rules[k].matcher != Exact(s)
    decreases |rules|
  {
    if rules == [] then -1
    else if rules[0].matcher == Exact(s) then 0
    else
      var j := FindIndex(rules[1..], s);
      if j == -1 then -1 else j + 1
  }

  /**
   * One integration: overwrite the first rule with the identical exact matcher
   * at its index, or append. The matcher at every existing index is kept, a
   * regex or undefined matcher is never touched, and an appended rule
   * duplicates no existing matcher.
   */
  function IntegrateOne(rules: seq<Rule>, ci: IntegrationDescriptor): (r: seq<Rule>)
    ensures |rules| <= |r| <= |rules| + 1
    ensures forall k :: 0 <= k < |rules| ==> r[k].matcher == rules[k].matcher
    ensures forall k :: 0 <= k < |rules| && !rules[k].matcher.Exact? ==> r[k] == rules[k]
    ensures forall k :: 0 <= k < |rules| ==> r[k] == rules[k] || Some(r[k]) == CloudRule(ci)
    ensures CloudRule(ci).None? ==> r == rules
    ensures |r| == |rules| + 1 ==>
      && CloudRule(ci).Some?
      && r[|rules|] == CloudRule(ci).value
      && forall k :: 0 <= k < |rules| ==> rules[k].matcher != r[|rules|].matcher
  {
    match CloudRule(ci)
    case None => rules
    case Some(provider) =>
      var index := FindIndex(rules, provider.matcher.s);
      if index != -1 then rules[index := provider] else rules + [provider]
  }

  /**
   * An integration whose lower-cased domain is already some rule's exact
   * matcher overwrites the first such rule at its index and nothing else.
   */
  lemma OverrideReplacesFirst(rules: seq<Rule>, ci: IntegrationDescriptor, j: nat)
    requires CloudRule(ci).Some? && j < |rules|
    requires rules[j].matcher == CloudRule(ci).value.matcher
    requires forall k :: 0 <= k < j ==> rules[k].matcher != CloudRule(ci).value.matcher
    ensures IntegrateOne(rules, ci) == rules[j := CloudRule(ci).value]
  {
  }

  /** An integration whose domain no rule matches exactly is appended after all rules. */
  lemma AppendWhenNoDuplicate(rules: seq<Rule>, ci: IntegrationDescriptor)
    requires CloudRule(ci).Some?
    requires forall k :: 0 <= k < |rules| ==> rules[k].matcher != CloudRule(ci).value.matcher
    ensures IntegrateOne(rules, ci) == rules + [CloudRule(ci).value]
  {
  }

  /** The integrations applied one after another, in order. */
  function Integrate(rules: seq<Rule>, cis: seq<IntegrationDescriptor>): (r: seq<Rule>)
    ensures |rules| <= |r| <= |rules| + |cis|
    decreases |cis|
  {
    if cis == [] then rules
    else IntegrateOne(Integrate(rules, cis[..|cis| - 1]), cis[|cis| - 1])
  }

  /**
   * What the integrations do to the list: every existing index keeps its
   * matcher, a regex or undefined matcher (and its rule) is never replaced,
   * and each rule appended after the existing ones is a non-custom exact rule
   * whose matcher occurs at no earlier index, so the integrations never
   * introduce a duplicate exact matcher.
   */
  lemma {:induction false} IntegrateShape(rules: seq<Rule>, cis: seq<IntegrationDescriptor>)
    ensures forall k :: 0 <= k < |rules| ==> Integrate(rules, cis)[k].matcher == rules[k].matcher
    ensures forall k :: 0 <= k < |rules| && !rules[k].matcher.Exact? ==> Integrate(rules, cis)[k] == rules[k]
    ensures forall k :: |rules| <= k < |Integrate(rules, cis)| ==>
      !Integrate(rules, cis)[k].custom && Integrate(rules, cis)[k].matcher.Exact?
    ensures forall k, k' :: 0 <= k' < k < |Integrate(rules, cis)| && |rules| <= k ==>
      Integrate(rules, cis)[k'].matcher != Integrate(rules, cis)[k].matcher
    decreases |cis|
  {
    if cis != [] {
      var front := Integrate(rules, cis[..|cis| - 1]);
      var r := IntegrateOne(front, cis[|cis| - 1]);
      IntegrateShape(rules, cis[..|cis| - 1]);
      assert Integrate(rules, cis) == r;
      forall k | |rules| <= k < |r| ensures !r[k].custom && r[k].matcher.Exact? {
        if k < |front| {
          assert !front[k].custom && front[k].matcher.Exact?;
        }
      }
    }
  }

  /** One more integration of a prefix is applied to the list built so far. */
  lemma IntegrateStep(rules: seq<Rule>, cis: seq<IntegrationDescriptor>, j: nat)
    requires j < |cis|
    ensures Integrate(rules, cis[..j + 1]) == IntegrateOne(Integrate(rules, cis[..j]), cis[j])
  {
    assert cis[..j + 1][..j] == cis[..j];
  }

  /** `FindIndex` looks at the matchers only. */
  lemma {:induction false} FindIndexSameMatchers(a: seq<Rule>, b: seq<Rule>, s: string)
    requires |a| == |b| && forall k :: 0 <= k < |a| ==> a[k].matcher == b[k].matcher
    ensures FindIndex(a, s) == FindIndex(b, s)
    decreases |a|
  {
    if a != [] {
      FindIndexSameMatchers(a[1..], b[1..], s);
    }
  }

  /** Appending a rule moves no first occurrence that already exists. */
  lemma {:induction false} FindIndexAfterAppend(rules: seq<Rule>, rule: Rule, s: string)
    ensures FindIndex(rules + [rule], s) ==
      if FindIndex(rules, s) != -1 then FindIndex(rules, s)
      else if rule.matcher == Exact(s) then |rules| else -1
    decreases |rules|
  {
    if rules != [] {
      assert (rules + [rule])[1..] == rules[1..] + [rule];
      FindIndexAfterAppend(rules[1..], rule, s);
    }
  }

  /**
   * The last integration for a domain wins: when no later descriptor
   * contributes a rule with the same exact matcher, its rule is the first rule
   * with that matcher in the final list, whether it overwrote a user rule, an
   * earlier integration's rule, or was appended.
   */
  lemma {:induction false} LastIntegrationWins(rules: seq<Rule>, cis: seq<IntegrationDescriptor>, i: nat, rule: Rule)
    requires i < |cis| && CloudRule(cis[i]) == Some(rule)
    requires forall j :: i < j < |cis| && CloudRule(cis[j]).Some? ==> CloudRule(cis[j]).value.matcher != rule.matcher
    ensures 0 <= FindIndex(Integrate(rules, cis), rule.matcher.s)
    ensures Integrate(rules, cis)[FindIndex(Integrate(rules, cis), rule.matcher.s)] == rule
    decreases |cis|
  {
    var front := cis[..|cis| - 1];
    var last := cis[|cis| - 1];
    var before := Integrate(rules, front);
    var s := rule.matcher.s;
    assert Integrate(rules, cis) == IntegrateOne(before, last);
    if i == |cis| - 1 {
      var index := FindIndex(before, s);
      if index != -1 {
        FindIndexSameMatchers(before[index := rule], before, s);
      } else {
        FindIndexAfterAppend(before, rule, s);
      }
    } else {
      forall j | i < j < |front| && CloudRule(front[j]).Some?
        ensures CloudRule(front[j]).value.matcher != rule.matcher
      {
        assert front[j] == cis[j];
      }
      assert front[i] == cis[i];
      LastIntegrationWins(rules, front, i, rule);
      var at := FindIndex(before, s);
      match CloudRule(last)
      case None =>
      case Some(other) =>
        assert other.matcher != rule.matcher;
        var index := FindIndex(before, other.matcher.s);
        if index != -1 {
          FindIndexSameMatchers(before[index := other], before, s);
          assert index != at;
        } else {
          FindIndexAfterAppend(before, other, s);
        }
    }
  }

  // ---------------------------------------------------------------------
  // The whole list

  /** The rule list `loadRemoteProviders` returns for the given configuration. */
  function LoadSpec(re: RegexEngine, cfg: Option<seq<RemoteConfig>>, cis: Option<seq<IntegrationDescriptor>>): (r: seq<Rule>)
    ensures |BuiltInProviders| <= |r| <= |cfg.GetOr([])| + |cis.GetOr([])| + |BuiltInProviders|
    ensures r[|r| - |BuiltInProviders|..] == BuiltInProviders
  {
    Integrate(UserRules(re, cfg.GetOr([])), cis.GetOr([])) + BuiltInProviders
  }

  /** The built-in rules all have a matcher. */
  lemma BuiltInsHaveMatchers()
    ensures forall k :: 0 <= k < |BuiltInProviders| ==> !BuiltInProviders[k].matcher.Missing?
    ensures CountMissing(BuiltInProviders) == 0
  {
  }

  /** The number of rules left with the undefined matcher. */
  function CountMissing(rules: seq<Rule>): (n: nat)
    ensures n <= |rules|
  {
    if rules == [] then 0
    else (if rules[0].matcher.Missing? then 1 else 0) + CountMissing(rules[1..])
  }

  lemma {:induction false} CountMissingConcat(a: seq<Rule>, b: seq<Rule>)
    ensures CountMissing(a + b) == CountMissing(a) + CountMissing(b)
    decreases |a|
  {
    if a == [] {
      assert a + b == b;
    } else {
      assert (a + b)[1..] == a[1..] + b;
      CountMissingConcat(a[1..], b);
    }
  }

  /** Two lists with the same matcher at every index have the same number of undefined matchers. */
  lemma {:induction false} CountMissingSameMatchers(a: seq<Rule>, b: seq<Rule>)
    requires |a| == |b| && forall k :: 0 <= k < |a| ==> a[k].matcher == b[k].matcher
    ensures CountMissing(a) == CountMissing(b)
    decreases |a|
  {
    if a != [] {
      CountMissingSameMatchers(a[1..], b[1..]);
    }
  }

  /** Integrations never add nor remove an undefined matcher. */
  lemma IntegrateOneCountMissing(rules: seq<Rule>, ci: IntegrationDescriptor)
    ensures CountMissing(IntegrateOne(rules, ci)) == CountMissing(rules)
  {
    var r := IntegrateOne(rules, ci);
    if |r| == |rules| {
      CountMissingSameMatchers(rules, r);
    } else {
      assert r == r[..|rules|] + [r[|rules|]];
      CountMissingSameMatchers(rules, r[..|rules|]);
      CountMissingConcat(r[..|rules|], [r[|rules|]]);
    }
  }

  /** Integrations never add nor remove an undefined matcher, however many there are. */
  lemma {:induction false} IntegrateCountMissing(rules: seq<Rule>, cis: seq<IntegrationDescriptor>)
    ensures CountMissing(Integrate(rules, cis)) == CountMissing(rules)
    decreases |cis|
  {
    if cis != [] {
      IntegrateCountMissing(rules, cis[..|cis| - 1]);
      IntegrateOneCountMissing(Integrate(rules, cis[..|cis| - 1]), cis[|cis| - 1]);
    }
  }

  /**
   * The `try` block of the first loop: the matcher for one user entry, and
   * whether the `catch` logged an error. A non-empty regex becomes the
   * matcher when it compiles; an absent or empty regex leaves the lower-cased
   * domain; the `catch` runs when the regex does not compile or when there is
   * neither a regex nor a domain, and then `matcher` stays undefined.
   */
  method BuildUserMatcher(re: RegexEngine, rc: RemoteConfig) returns (matcher: Matcher, failed: bool)
    ensures failed <==>
      || (rc.regex.GetOr("") != "" && !re.compiles(rc.regex.value))
      || (rc.regex.GetOr("") == "" && rc.domain.None?)
    ensures failed ==> matcher == Missing
    ensures rc.regex.GetOr("") != "" && re.compiles(rc.regex.value) ==> matcher == Pattern(rc.regex.value)
    ensures rc.regex.GetOr("") == "" && rc.domain.Some? ==> matcher == Exact(Lower(rc.domain.value))
    ensures matcher == UserMatcher(re, rc)
  {
    if rc.regex.Some? && rc.regex.value != "" {
      matcher := if re.compiles(rc.regex.value) then Pattern(rc.regex.value) else Missing;
    } else if rc.domain.Some? {
      matcher := Exact(Lower(rc.domain.value));
    } else {
      matcher := Missing;
    }
    failed := matcher.Missing?;
  }

  /**
   * The first loop of `loadRemoteProviders`: one `push` per user entry whose
   * `type` tag is known. `errors` counts the `Logger.error` calls for entries
   * without a usable matcher; each such entry is still pushed, with the
   * undefined matcher.
   */
  method PushUserRules(re: RegexEngine, entries: seq<RemoteConfig>) returns (providers: seq<Rule>, errors: nat)
    ensures providers == UserRules(re, entries)
    ensures errors == CountMissing(providers)
  {
    providers := [];
    errors := 0;
    var i := 0;
    while i < |entries|
      invariant 0 <= i <= |entries|
      invariant providers == UserRules(re, entries[..i])
      invariant errors == CountMissing(providers)
    {
      var rc := entries[i];
      UserRulesStep(re, entries, i);
      var providerCreator := GetCustomProviderCreator(rc);
      if providerCreator.Some? {
        var matcher, failed := BuildUserMatcher(re, rc);
        if failed {
          errors := errors + 1;
        }
        var rule := Rule(true, matcher, providerCreator.value);
        assert UserRule(re, rc) == Some(rule);
        CountMissingConcat(providers, [rule]);
        providers := providers + [rule];
      }
      i := i + 1;
    }
    assert entries[..i] == entries;
  }

  /**
   * The second loop of `loadRemoteProviders`: each cloud self-hosted
   * integration with a domain overwrites, in place, the first rule whose
   * matcher is that lower-cased domain, or is pushed at the end.
   */
  method ApplyIntegrations(rules: seq<Rule>, cis: seq<IntegrationDescriptor>) returns (providers: seq<Rule>)
    ensures providers == Integrate(rules, cis)
    ensures CountMissing(providers) == CountMissing(rules)
  {
    providers := rules;
    var j := 0;
    while j < |cis|
      invariant 0 <= j <= |cis|
      invariant providers == Integrate(rules, cis[..j])
      invariant CountMissing(providers) == CountMissing(rules)
    {
      var ci := cis[j];
      IntegrateStep(rules, cis, j);
      IntegrateOneCountMissing(providers, ci);
      var kind := CloudKind(ci.integrationId);
      if kind.Some? && ci.domain.Some? && ci.domain.value != "" {
        var matcher := Lower(ci.domain.value);
        var provider := Rule(false, Exact(matcher), Plain(kind.value));
        var indexOfCustomDuplication := FindIndex(providers, matcher);
        if indexOfCustomDuplication != -1 {
          providers := providers[indexOfCustomDuplication := provider];
        } else {
          providers := providers + [provider];
        }
      }
      j := j + 1;
    }
    assert cis[..j] == cis;
  }

  /**
   * `loadRemoteProviders`: user rules, then integrations, then the built-in
   * rules. `errors` counts the logged load errors; each leaves one rule with
   * the undefined matcher in the list.
   */
  method LoadRemoteProviders(re: RegexEngine, cfg: Option<seq<RemoteConfig>>, integrations: Option<seq<IntegrationDescriptor>>)
    returns (providers: seq<Rule>, errors: nat)
    ensures providers == LoadSpec(re, cfg, integrations)
    ensures |providers| >= |BuiltInProviders|
    ensures providers[|providers| - |BuiltInProviders|..] == BuiltInProviders
    ensures errors == CountMissing(providers)
  {
    providers, errors := PushUserRules(re, cfg.GetOr([]));
    providers := ApplyIntegrations(providers, integrations.GetOr([]));
    CountMissingConcat(providers, BuiltInProviders);
    BuiltInsHaveMatchers();
    providers := providers + BuiltInProviders;
  }

  /**
   * A user entry matched by its domain and a cloud self-hosted integration on
   * the same domain, in any letter case: the integration overwrites the user
   * rule in place, so the loaded list is the integration's rule followed by
   * the built-in rules.
   */
  lemma IntegrationOverridesUserEntry(re: RegexEngine, entry: RemoteConfig, integration: IntegrationDescriptor)
    requires KindOfTag(entry.providerType).Some?
    requires entry.regex.GetOr("") == "" && entry.domain.Some?
    requires CloudKind(integration.integrationId).Some? && integration.domain.Some? && integration.domain.value != ""
    requires Lower(integration.domain.value) == Lower(entry.domain.value)
    ensures CloudRule(integration).Some?
    ensures LoadSpec(re, Some([entry]), Some([integration])) == [CloudRule(integration).value] + BuiltInProviders
  {
    UserRulesSingle(re, entry);
    var user := UserRules(re, [entry]);
    var rule := CloudRule(integration).value;
    assert user[0].matcher == rule.matcher;
    assert FindIndex(user, rule.matcher.s) == 0;
    assert [integration][..0] == [];
    assert Integrate(user, [integration]) == IntegrateOne(user, integration);
  }

  /** Integrating and appending the built-ins keeps each undefined-matcher rule in place and adds none. */
  lemma MissingStayInPlace(rules: seq<Rule>, cis: seq<IntegrationDescriptor>)
    ensures forall k :: 0 <= k < |rules| && rules[k].matcher.Missing? ==> (Integrate(rules, cis) + BuiltInProviders)[k] == rules[k]
    ensures forall k :: |rules| <= k < |Integrate(rules, cis) + BuiltInProviders| ==>
      !(Integrate(rules, cis) + BuiltInProviders)[k].matcher.Missing?
  {
    var integrated := Integrate(rules, cis);
    var loaded := integrated + BuiltInProviders;
    IntegrateShape(rules, cis);
    BuiltInsHaveMatchers();
    forall k | |rules| <= k < |loaded| ensures !loaded[k].matcher.Missing? {
      if k < |integrated| {
        assert loaded[k] == integrated[k];
      } else {
        assert loaded[k] == BuiltInProviders[k - |integrated|];
      }
    }
  }

  /** Every load error leaves exactly one rule with the undefined matcher in the final list. */
  lemma LoadErrorsAreBrokenRules(re: RegexEngine, cfg: Option<seq<RemoteConfig>>, cis: Option<seq<IntegrationDescriptor>>)
    ensures CountMissing(LoadSpec(re, cfg, cis)) == CountMissing(UserRules(re, cfg.GetOr([])))
  {
    var integrated := Integrate(UserRules(re, cfg.GetOr([])), cis.GetOr([]));
    IntegrateCountMissing(UserRules(re, cfg.GetOr([])), cis.GetOr([]));
    CountMissingConcat(integrated, BuiltInProviders);
    BuiltInsHaveMatchers();
  }

  /**
   * The rules with the undefined matcher in the final list are exactly the
   * user rules with the undefined matcher, unchanged at their indices: no
   * integration or built-in rule has the undefined matcher.
   */
  lemma BrokenRulesAreUserRules(re: RegexEngine, cfg: Option<seq<RemoteConfig>>, cis: Option<seq<IntegrationDescriptor>>)
    ensures forall k :: 0 <= k < |UserRules(re, cfg.GetOr([]))| && UserRules(re, cfg.GetOr([]))[k].matcher.Missing? ==>
      LoadSpec(re, cfg, cis)[k] == UserRules(re, cfg.GetOr([]))[k]
    ensures forall k :: |UserRules(re, cfg.GetOr([]))| <= k < |LoadSpec(re, cfg, cis)| ==> !LoadSpec(re, cfg, cis)[k].matcher.Missing?
  {
    MissingStayInPlace(UserRules(re, cfg.GetOr([])), cis.GetOr([]));
  }
}
