/**
 * The static rule repository (pkg/repo/static/repo.go): ordered scans over an
 * immutable list of configured rules, first-match lookups by name, and the
 * field-preserving conversion from configuration rules to core rules.
 * A request's context is modelled by `cancelled`: whether it was already
 * done when the call was made.
 */
module StaticRepo {
  import opened Results
  import GoText

  /** Configuration-side types, as read from the configuration file. */
  datatype Example = Example(description: string, code: string, context: string)
  datatype RulePattern = RulePattern(template: string, replacements: map<string, string>, format: string)
  datatype Rule = Rule(
    name: string,
    category: string,
    ruleType: string,
    description: string,
    pattern: RulePattern,
    examples: seq<Example>,
    appliesTo: seq<string>,
    priority: int,
    isRequired: bool)

  /** Core-side types the repository hands out. */
  datatype CoreExample = CoreExample(description: string, code: string, context: string)
  datatype CorePattern = CorePattern(template: string, replacements: map<string, string>, format: string)
  datatype CoreRule = CoreRule(
    name: string,
    category: string,
    ruleType: string,
    description: string,
    pattern: CorePattern,
    examples: seq<CoreExample>,
    appliesTo: seq<string>,
    priority: int,
    isRequired: bool)

  /** The repository's failures: a done context, or no rule of that name. */
  datatype RepoError = Cancelled | TemplateNotFound(ruleName: string) | ExamplesNotFound(ruleName: string) {
    /** The error text: a lookup that found nothing names the rule at the end. */
    function Message(): (m: string)
      ensures this.Cancelled? ==> m == "context canceled"
      ensures !this.Cancelled? ==> GoText.HasSuffix(m, this.ruleName)
    {
      match this
      case Cancelled => "context canceled"
      case TemplateNotFound(n) => "template not found for rule: " + n
      case ExamplesNotFound(n) => "examples not found for rule: " + n
    }
  }

  function ConvertExample(e: Example): CoreExample {
    CoreExample(e.description, e.code, e.context)
  }

  /** Specification of `convertExamples`: one core example per example, in order. */
  function ConvertedExamples(es: seq<Example>): (cs: seq<CoreExample>)
    ensures |cs| == |es|
    ensures forall i :: 0 <= i < |es| ==>
      cs[i].description == es[i].description && cs[i].code == es[i].code && cs[i].context == es[i].context
  {
    seq(|es|, i requires 0 <= i < |es| => ConvertExample(es[i]))
  }

  /** `convertExamples`: fills a slice of the same length, index by index. */
  method ConvertExamples(examples: seq<Example>) returns (result: seq<CoreExample>)
    ensures result == ConvertedExamples(examples)
  {
    var a := new CoreExample[|examples|];
    for i := 0 to |examples|
      invariant forall k :: 0 <= k < i ==> a[k] == ConvertExample(examples[k])
    {
      a[i] := CoreExample(examples[i].description, examples[i].code, examples[i].context);
    }
    result := a[..];
  }

  /** `convertRule`: every field is carried over unchanged. */
  function ConvertRule(rule: Rule): (c: CoreRule)
    ensures c.name == rule.name && c.category == rule.category && c.ruleType == rule.ruleType
    ensures c.description == rule.description
    ensures c.pattern.template == rule.pattern.template
    ensures c.pattern.replacements == rule.pattern.replacements
    ensures c.pattern.format == rule.pattern.format
    ensures c.examples == ConvertedExamples(rule.examples)
    ensures c.appliesTo == rule.appliesTo && c.priority == rule.priority && c.isRequired == rule.isRequired
  {
    CoreRule(
      rule.name, rule.category, rule.ruleType, rule.description,
      CorePattern(rule.pattern.template, rule.pattern.replacements, rule.pattern.format),
      ConvertedExamples(rule.examples),
      rule.appliesTo, rule.priority, rule.isRequired)
  }

  /** The way back from a core rule to a configuration rule. */
  function ToConfigRule(c: CoreRule): Rule {
    Rule(
      c.name, c.category, c.ruleType, c.description,
      RulePattern(c.pattern.template, c.pattern.replacements, c.pattern.format),
      seq(|c.examples|, i requires 0 <= i < |c.examples| =>
        Example(c.examples[i].description, c.examples[i].code, c.examples[i].context)),
      c.appliesTo, c.priority, c.isRequired)
  }

  /** Conversion loses nothing and invents nothing: it is a bijection. */
  lemma ConvertRuleRoundTrip(r: Rule, c: CoreRule)
    ensures ToConfigRule(ConvertRule(r)) == r
    ensures ConvertRule(ToConfigRule(c)) == c
  {
    assert ToConfigRule(ConvertRule(r)).examples == r.examples;
    assert ConvertRule(ToConfigRule(c)).examples == c.examples;
  }

  /** The three scan filters. */
  datatype Criterion = ByCategory(category: string) | ByType(ruleType: string) | ByContext(context: string)

  predicate Matches(crit: Criterion, rule: Rule) {
    match crit
    case ByCategory(c) => rule.category == c
    case ByType(t) => rule.ruleType == t
    case ByContext(x) => x in rule.appliesTo
  }

  /** Specification of a scan: the matching rules, converted, in configuration order. */
  function Select(rules: seq<Rule>, crit: Criterion): seq<CoreRule>
    decreases |rules|
  {
    if rules == [] then []
    else
      var last := rules[|rules| - 1];
      Select(rules[..|rules| - 1], crit) + (if Matches(crit, last) then [ConvertRule(last)] else [])
  }

  /** Scanning concatenated lists concatenates the answers: the order is kept. */
  lemma {:induction false} SelectConcat(a: seq<Rule>, b: seq<Rule>, crit: Criterion)
    ensures Select(a + b, crit) == Select(a, crit) + Select(b, crit)
    decreases |b|
  {
    if b == [] {
      assert a + b == a;
    } else {
      var ab := a + b;
      assert ab[..|ab| - 1] == a + b[..|b| - 1];
      assert ab[|ab| - 1] == b[|b| - 1];
      SelectConcat(a, b[..|b| - 1], crit);
    }
  }

  /** A scan never returns more rules than are configured. */
  lemma {:induction false} SelectLength(rules: seq<Rule>, crit: Criterion)
    ensures |Select(rules, crit)| <= |rules|
    decreases |rules|
  {
    if rules != [] {
      SelectLength(rules[..|rules| - 1], crit);
    }
  }

  /**
   * Each configured rule contributes exactly once if it matches and not at all
   * otherwise: a core rule occurs in the answer as often as its source occurs
   * among the matching configured rules.
   */
  lemma {:induction false} SelectMultiplicity(rules: seq<Rule>, crit: Criterion, c: CoreRule)
    ensures multiset(Select(rules, crit))[c] ==
      if Matches(crit, ToConfigRule(c)) then multiset(rules)[ToConfigRule(c)] else 0
    decreases |rules|
  {
    if rules != [] {
      var init, last := rules[..|rules| - 1], rules[|rules| - 1];
      assert rules == init + [last];
      SelectMultiplicity(init, crit, c);
      ConvertRuleRoundTrip(last, c);
    }
  }

  /** Exactly the matching configured rules are returned. */
  lemma SelectMembership(rules: seq<Rule>, crit: Criterion, c: CoreRule)
    ensures c in Select(rules, crit) <==> ToConfigRule(c) in rules && Matches(crit, ToConfigRule(c))
  {
    SelectMultiplicity(rules, crit, c);
  }

  /** The first index whose rule has the given name. */
  function FirstNamed(rules: seq<Rule>, name: string): (r: Option<nat>)
    ensures r.Some? ==>
      (r.value < |rules| && rules[r.value].name == name && forall j :: 0 <= j < r.value ==> rules[j].name != name)
    ensures r.None? <==> forall j :: 0 <= j < |rules| ==> rules[j].name != name
    decreases |rules|
  {
    if rules == [] then None
    else if rules[0].name == name then Some(0)
    else match FirstNamed(rules[1..], name)
      case Some(k) => Some(k + 1)
      case None => None
  }

  /** The repository holds the configured rules and never changes them. */
  datatype Repository = Repository(config: seq<Rule>) {

    /** `GetRulesByCategory`. */
    method GetRulesByCategory(cancelled: bool, category: string) returns (r: Result<seq<CoreRule>, RepoError>)
      ensures cancelled ==> r == Failure(Cancelled)
      ensures !cancelled ==> r == Success(Select(config, ByCategory(category)))
    {
      if cancelled {
        return Failure(Cancelled);
      }
      var rules: seq<CoreRule> := [];
      for i := 0 to |config|
        invariant rules == Select(config[..i], ByCategory(category))
      {
        var rule := config[i];
        assert config[..i + 1][..i] == config[..i];
        if rule.category == category {
          rules := rules + [ConvertRule(rule)];
        }
      }
      assert config[..|config|] == config;
      return Success(rules);
    }

    /** `GetRulesByType`. */
    method GetRulesByType(cancelled: bool, ruleType: string) returns (r: Result<seq<CoreRule>, RepoError>)
      ensures cancelled ==> r == Failure(Cancelled)
      ensures !cancelled ==> r == Success(Select(config, ByType(ruleType)))
    {
      if cancelled {
        return Failure(Cancelled);
      }
      var rules: seq<CoreRule> := [];
      for i := 0 to |config|
        invariant rules == Select(config[..i], ByType(ruleType))
      {
        var rule := config[i];
        assert config[..i + 1][..i] == config[..i];
        if rule.ruleType == ruleType {
          rules := rules + [ConvertRule(rule)];
        }
      }
      assert config[..|config|] == config;
      return Success(rules);
    }

    /** `GetApplicableRules`: the inner scan stops at the first matching entry of `AppliesTo`. */
    method GetApplicableRules(cancelled: bool, context: string) returns (r: Result<seq<CoreRule>, RepoError>)
      ensures cancelled ==> r == Failure(Cancelled)
      ensures !cancelled ==> r == Success(Select(config, ByContext(context)))
    {
      if cancelled {
        return Failure(Cancelled);
      }
      var rules: seq<CoreRule> := [];
      for i := 0 to |config|
        invariant rules == Select(config[..i], ByContext(context))
      {
        var rule := config[i];
        assert config[..i + 1][..i] == config[..i];
        var j := 0;
        while j < |rule.appliesTo|
          invariant 0 <= j <= |rule.appliesTo|
          invariant context !in rule.appliesTo[..j]
          invariant rules == Select(config[..i], ByContext(context))
        {
          if rule.appliesTo[j] == context {
            rules := rules + [ConvertRule(rule)];
            break;
          }
          assert rule.appliesTo[..j + 1] == rule.appliesTo[..j] + [rule.appliesTo[j]];
          j := j + 1;
        }
        assert j == |rule.appliesTo| ==> rule.appliesTo[..j] == rule.appliesTo;
      }
      assert config[..|config|] == config;
      return Success(rules);
    }

    /** `GetTemplate`: the template of the first rule with that name. */
    method GetTemplate(cancelled: bool, ruleName: string) returns (r: Result<string, RepoError>)
      ensures cancelled ==> r == Failure(Cancelled)
      ensures !cancelled ==> r == match FirstNamed(config, ruleName)
        case Some(i) => Success(config[i].pattern.template)
        case None => Failure(TemplateNotFound(ruleName))
    {
      if cancelled {
        return Failure(Cancelled);
      }
      for i := 0 to |config|
        invariant forall j :: 0 <= j < i ==> config[j].name != ruleName
      {
        if config[i].name == ruleName {
          return Success(config[i].pattern.template);
        }
      }
      return Failure(TemplateNotFound(ruleName));
    }

    /** `GetExamples`: the converted examples of the first rule with that name. */
    method GetExamples(cancelled: bool, ruleName: string) returns (r: Result<seq<CoreExample>, RepoError>)
      ensures cancelled ==> r == Failure(Cancelled)
      ensures !cancelled ==> r == match FirstNamed(config, ruleName)
        case Some(i) => Success(ConvertedExamples(config[i].examples))
        case None => Failure(ExamplesNotFound(ruleName))
    {
      if cancelled {
        return Failure(Cancelled);
      }
      for i := 0 to |config|
        invariant forall j :: 0 <= j < i ==> config[j].name != ruleName
      {
        if config[i].name == ruleName {
          var examples := ConvertExamples(config[i].examples);
          return Success(examples);
        }
      }
      return Failure(ExamplesNotFound(ruleName));
    }
  }

  /** The worked scenario: two testing rules and one style rule; a category scan returns the two, in order. */
  lemma CategoryScenario(a: Rule, b: Rule, c: Rule)
    requires a.category == "testing" && b.category == "testing" && c.category == "style"
    ensures Select([a, b, c], ByCategory("testing")) == [ConvertRule(a), ConvertRule(b)]
  {
    var crit := ByCategory("testing");
    assert [a][..0] == [];
    assert Select([a], crit) == [ConvertRule(a)];
    assert [a, b][..1] == [a];
    assert Select([a, b], crit) == [ConvertRule(a), ConvertRule(b)];
    assert [a, b, c][..2] == [a, b];
  }
}
