/**
 * The conversion subsystem: a table of rules keyed by (source game, target
 * game, item category), register-with-replace, first-match lookup, and the
 * table-driven transform of asset properties.
 */
module Conversion {
  import opened Wrappers
  import opened Text
  import opened StandardTypes

  /** FInterverseConversionRule. */
  datatype ConversionRule = ConversionRule(
    fromGameType: string,
    toGameType: string,
    itemCategory: ItemCategory,
    numericConversionRates: map<string, real>,
    propertyMappings: map<string, string>,
    colorMappings: map<string, LinearColor>)

  /** A rule applies to a conversion when both game names are equal ignoring case and the category is the same. */
  predicate Matches(rule: ConversionRule, fromGame: string, toGame: string, category: ItemCategory) {
    EqualsIgnoreCase(rule.fromGameType, fromGame) && EqualsIgnoreCase(rule.toGameType, toGame) && rule.itemCategory == category
  }

  /** Two rules are for the same conversion. */
  predicate SameKey(existing: ConversionRule, rule: ConversionRule) {
    Matches(existing, rule.fromGameType, rule.toGameType, rule.itemCategory)
  }

  /** The rule Initialize registers: Fantasy to SciFi weapons. */
  const DefaultRule: ConversionRule := ConversionRule(
    "Fantasy", "SciFi", Weapon,
    map["Damage" := 10.0, "DurabilityPoints" := 2.0],
    map["Fire" := "Plasma", "Ice" := "Cryo", "Lightning" := "Electric"],
    map[])

  /** The position of the first rule for the conversion, if any. */
  function FindRule(rules: seq<ConversionRule>, fromGame: string, toGame: string, category: ItemCategory): (r: Option<nat>)
    ensures r.Some? ==> r.value < |rules| && Matches(rules[r.value], fromGame, toGame, category)
    decreases |rules|
  {
    if |rules| == 0 then None
    else if Matches(rules[0], fromGame, toGame, category) then Some(0)
    else
      match FindRule(rules[1..], fromGame, toGame, category)
      case None => None
      case Some(i) => Some(i + 1)
  }

  /** The rule found is the first that matches: no rule before it (or, when none is found, no rule at all) matches. */
  lemma {:induction false} FindRuleFirst(rules: seq<ConversionRule>, fromGame: string, toGame: string, category: ItemCategory)
    ensures var r := FindRule(rules, fromGame, toGame, category);
            forall j :: 0 <= j < |rules| && (r.None? || j < r.value) ==> !Matches(rules[j], fromGame, toGame, category)
    decreases |rules|
  {
    if |rules| > 0 && !Matches(rules[0], fromGame, toGame, category) {
      FindRuleFirst(rules[1..], fromGame, toGame, category);
      assert forall j :: 0 < j < |rules| ==> rules[j] == rules[1..][j - 1];
    }
  }

  /** The rules other than those for the same conversion as `rule`, in their order (TArray::RemoveAll). */
  function WithoutKey(rules: seq<ConversionRule>, rule: ConversionRule): seq<ConversionRule>
    decreases |rules|
  {
    if |rules| == 0 then []
    else (if SameKey(rules[0], rule) then [] else [rules[0]]) + WithoutKey(rules[1..], rule)
  }

  /** The table after registering `rule`: the old rules for its conversion removed, `rule` appended. */
  function Registered(rules: seq<ConversionRule>, rule: ConversionRule): seq<ConversionRule> {
    WithoutKey(rules, rule) + [rule]
  }

  /** How many rules are for the same conversion as `rule`. */
  function CountKey(rules: seq<ConversionRule>, rule: ConversionRule): nat
    decreases |rules|
  {
    if |rules| == 0 then 0
    else (if SameKey(rules[0], rule) then 1 else 0) + CountKey(rules[1..], rule)
  }

  /** The numeric entries after the rates: each entry with a rate is multiplied by it, keys are kept. */
  function ScaledNumbers(numbers: map<string, real>, rates: map<string, real>): map<string, real> {
    map k | k in numbers :: if k in rates then numbers[k] * rates[k] else numbers[k]
  }

  /** The string entries after the mappings: each entry whose value is a mapping key takes the mapped value, once. */
  function MappedStrings(strings: map<string, string>, mappings: map<string, string>): map<string, string> {
    map k | k in strings :: if strings[k] in mappings then mappings[strings[k]] else strings[k]
  }

  /** A colour replaced by the mapping under `key`, when the rule has one. */
  function MappedColor(color: LinearColor, mappings: map<string, LinearColor>, key: string): LinearColor {
    if key in mappings then mappings[key] else color
  }

  /** The table-driven part of ConvertAsset for one rule. */
  function ApplyRule(p: BaseProperties, rule: ConversionRule): BaseProperties {
    p.(numericProperties := ScaledNumbers(p.numericProperties, rule.numericConversionRates),
       stringProperties := MappedStrings(p.stringProperties, rule.propertyMappings),
       primaryColor := MappedColor(p.primaryColor, rule.colorMappings, "Primary"),
       secondaryColor := MappedColor(p.secondaryColor, rule.colorMappings, "Secondary"))
  }

  /** ConvertAsset up to the Blueprint hook: the first matching rule applied, or the input unchanged. */
  function Converted(rules: seq<ConversionRule>, p: BaseProperties, fromGame: string, toGame: string): BaseProperties {
    match FindRule(rules, fromGame, toGame, p.category)
    case None => p
    case Some(i) => ApplyRule(p, rules[i])
  }

  /** Rules other than those for the conversion of `rule` survive removal in order; the removed ones are exactly those. */
  lemma {:induction false} WithoutKeyMembers(rules: seq<ConversionRule>, rule: ConversionRule)
    ensures forall x :: x in WithoutKey(rules, rule) <==> x in rules && !SameKey(x, rule)
    ensures CountKey(WithoutKey(rules, rule), rule) == 0
    decreases |rules|
  {
    if |rules| > 0 {
      WithoutKeyMembers(rules[1..], rule);
      CountKeyAppend((if SameKey(rules[0], rule) then [] else [rules[0]]), WithoutKey(rules[1..], rule), rule);
    }
  }

  lemma {:induction false} CountKeyAppend(a: seq<ConversionRule>, b: seq<ConversionRule>, rule: ConversionRule)
    ensures CountKey(a + b, rule) == CountKey(a, rule) + CountKey(b, rule)
    decreases |a|
  {
    if |a| > 0 {
      assert (a + b)[0] == a[0];
      assert (a + b)[1..] == a[1..] + b;
      CountKeyAppend(a[1..], b, rule);
    } else {
      assert a + b == b;
    }
  }

  /**
   * After registering `rule`, exactly one rule is for its conversion: `rule`
   * itself, at the end; the other rules keep their relative order.
   */
  lemma RegisterReplaces(rules: seq<ConversionRule>, rule: ConversionRule)
    ensures var r := Registered(rules, rule);
            && r[|r| - 1] == rule
            && r[..|r| - 1] == WithoutKey(rules, rule)
            && CountKey(r, rule) == 1
            && (forall x :: x in r && x != rule ==> x in rules && !SameKey(x, rule))
  {
    WithoutKeyMembers(rules, rule);
    CountKeyAppend(WithoutKey(rules, rule), [rule], rule);
    EqualsIgnoreCaseIsEquivalence(rule.fromGameType, rule.fromGameType, rule.fromGameType);
    EqualsIgnoreCaseIsEquivalence(rule.toGameType, rule.toGameType, rule.toGameType);
  }

  /** A rule that matches a query is for the same conversion as every rule matching the same query. */
  lemma SameKeyFromMatches(x: ConversionRule, rule: ConversionRule, fromGame: string, toGame: string, category: ItemCategory)
    requires Matches(x, fromGame, toGame, category) && SameKey(x, rule)
    ensures Matches(rule, fromGame, toGame, category)
  {
    EqualsIgnoreCaseIsEquivalence(rule.fromGameType, x.fromGameType, fromGame);
    EqualsIgnoreCaseIsEquivalence(x.fromGameType, rule.fromGameType, fromGame);
    EqualsIgnoreCaseIsEquivalence(rule.toGameType, x.toGameType, toGame);
    EqualsIgnoreCaseIsEquivalence(x.toGameType, rule.toGameType, toGame);
  }

  /** A lookup's answer one position further along. */
  function Shift(k: Option<nat>): Option<nat> {
    if k.Some? then Some(k.value + 1) else None
  }

  /** A lookup in a table with a rule in front: that rule if it matches, else the lookup in the rest, one further along. */
  lemma FindRuleCons(x: ConversionRule, rest: seq<ConversionRule>, fromGame: string, toGame: string, category: ItemCategory)
    ensures FindRule([x] + rest, fromGame, toGame, category)
         == if Matches(x, fromGame, toGame, category) then Some(0) else Shift(FindRule(rest, fromGame, toGame, category))
  {
    assert ([x] + rest)[0] == x && ([x] + rest)[1..] == rest;
  }

  /** Removal keeps a first rule for another conversion in front. */
  lemma WithoutKeyCons(rules: seq<ConversionRule>, rule: ConversionRule)
    requires |rules| > 0
    ensures WithoutKey(rules, rule) == if SameKey(rules[0], rule) then WithoutKey(rules[1..], rule) else [rules[0]] + WithoutKey(rules[1..], rule)
  {
  }

  /** One step of the removal loop: the rule at `i` is kept exactly when it is for another conversion. */
  lemma WithoutKeyStep(rules: seq<ConversionRule>, i: nat, rule: ConversionRule)
    requires i < |rules|
    ensures WithoutKey(rules[i..], rule) == (if SameKey(rules[i], rule) then [] else [rules[i]]) + WithoutKey(rules[i + 1..], rule)
  {
    assert rules[i..][0] == rules[i] && rules[i..][1..] == rules[i + 1..];
  }

  /** The lookups in `rules` and in `kept` agree: both find a rule or neither does, and then the same rule. */
  predicate Agrees(rules: seq<ConversionRule>, kept: seq<ConversionRule>, fromGame: string, toGame: string, category: ItemCategory) {
    var before, after := FindRule(rules, fromGame, toGame, category), FindRule(kept, fromGame, toGame, category);
    && before.Some? == after.Some?
    && (before.Some? ==> rules[before.value] == kept[after.value])
  }

  /** Dropping a first rule that does not match keeps the lookups in agreement. */
  lemma AgreesDropHead(rules: seq<ConversionRule>, kept: seq<ConversionRule>, fromGame: string, toGame: string, category: ItemCategory)
    requires |rules| > 0 && !Matches(rules[0], fromGame, toGame, category)
    requires Agrees(rules[1..], kept, fromGame, toGame, category)
    ensures Agrees(rules, kept, fromGame, toGame, category)
  {
    FindRuleCons(rules[0], rules[1..], fromGame, toGame, category);
    assert [rules[0]] + rules[1..] == rules;
    var inTail := FindRule(rules[1..], fromGame, toGame, category);
    if inTail.Some? {
      assert rules[inTail.value + 1] == rules[1..][inTail.value];
    }
  }

  /** Putting the same rule in front of both tables keeps the lookups in agreement. */
  lemma AgreesCons(x: ConversionRule, rules: seq<ConversionRule>, kept: seq<ConversionRule>, fromGame: string, toGame: string, category: ItemCategory)
    requires Agrees(rules, kept, fromGame, toGame, category)
    ensures Agrees([x] + rules, [x] + kept, fromGame, toGame, category)
  {
    FindRuleCons(x, rules, fromGame, toGame, category);
    FindRuleCons(x, kept, fromGame, toGame, category);
    var b, a := FindRule(rules, fromGame, toGame, category), FindRule(kept, fromGame, toGame, category);
    if !Matches(x, fromGame, toGame, category) && b.Some? {
      assert ([x] + rules)[b.value + 1] == rules[b.value] && ([x] + kept)[a.value + 1] == kept[a.value];
    }
  }

  /** Removal does not disturb the lookup of any conversion that `rule` does not match. */
  lemma {:induction false} FindRuleWithoutKey(rules: seq<ConversionRule>, rule: ConversionRule, fromGame: string, toGame: string, category: ItemCategory)
    requires !Matches(rule, fromGame, toGame, category)
    ensures var before, after := FindRule(rules, fromGame, toGame, category), FindRule(WithoutKey(rules, rule), fromGame, toGame, category);
            && before.Some? == after.Some?
            && (before.Some? ==> rules[before.value] == WithoutKey(rules, rule)[after.value])
    decreases |rules|
  {
    if |rules| > 0 {
      var tail := rules[1..];
      FindRuleWithoutKey(tail, rule, fromGame, toGame, category);
      assert Agrees(tail, WithoutKey(tail, rule), fromGame, toGame, category);
      WithoutKeyCons(rules, rule);
      if SameKey(rules[0], rule) {
        assert !Matches(rules[0], fromGame, toGame, category) by {
          if Matches(rules[0], fromGame, toGame, category) {
            SameKeyFromMatches(rules[0], rule, fromGame, toGame, category);
          }
        }
        AgreesDropHead(rules, WithoutKey(tail, rule), fromGame, toGame, category);
      } else {
        AgreesCons(rules[0], tail, WithoutKey(tail, rule), fromGame, toGame, category);
        assert [rules[0]] + tail == rules;
      }
      assert Agrees(rules, WithoutKey(rules, rule), fromGame, toGame, category);
    }
  }

  /** The first-match property determines the lookup: any position (or none) that has it is FindRule's answer. */
  lemma FindRuleIs(rules: seq<ConversionRule>, fromGame: string, toGame: string, category: ItemCategory, k: Option<nat>)
    requires k.Some? ==> k.value < |rules| && Matches(rules[k.value], fromGame, toGame, category)
    requires forall j :: 0 <= j < |rules| && (k.None? || j < k.value) ==> !Matches(rules[j], fromGame, toGame, category)
    ensures FindRule(rules, fromGame, toGame, category) == k
  {
    FindRuleFirst(rules, fromGame, toGame, category);
  }

  /** Appending a rule does not disturb a lookup that already succeeds; otherwise the appended rule is found exactly when it matches. */
  lemma FindRuleAppend(rules: seq<ConversionRule>, rule: ConversionRule, fromGame: string, toGame: string, category: ItemCategory)
    ensures FindRule(rules + [rule], fromGame, toGame, category)
         == if FindRule(rules, fromGame, toGame, category).Some? then FindRule(rules, fromGame, toGame, category)
            else if Matches(rule, fromGame, toGame, category) then Some(|rules|)
            else None
  {
    var longer := rules + [rule];
    var f := FindRule(rules, fromGame, toGame, category);
    FindRuleFirst(rules, fromGame, toGame, category);
    assert forall j :: 0 <= j < |rules| ==> longer[j] == rules[j];
    if f.Some? {
      FindRuleIs(longer, fromGame, toGame, category, f);
    } else if Matches(rule, fromGame, toGame, category) {
      assert longer[|rules|] == rule;
      FindRuleIs(longer, fromGame, toGame, category, Some(|rules|));
    } else {
      assert longer[|rules|] == rule;
      FindRuleIs(longer, fromGame, toGame, category, None);
    }
  }

  /** After registering `rule`, looking up its own conversion finds `rule`. */
  lemma FindAfterRegister(rules: seq<ConversionRule>, rule: ConversionRule)
    ensures var r := Registered(rules, rule);
            var found := FindRule(r, rule.fromGameType, rule.toGameType, rule.itemCategory);
            found.Some? && r[found.value] == rule
  {
    var rest := WithoutKey(rules, rule);
    WithoutKeyMembers(rules, rule);
    EqualsIgnoreCaseIsEquivalence(rule.fromGameType, rule.fromGameType, rule.fromGameType);
    EqualsIgnoreCaseIsEquivalence(rule.toGameType, rule.toGameType, rule.toGameType);
    FindRuleAppend(rest, rule, rule.fromGameType, rule.toGameType, rule.itemCategory);
    assert Matches(rule, rule.fromGameType, rule.toGameType, rule.itemCategory);
    var before := FindRule(rest, rule.fromGameType, rule.toGameType, rule.itemCategory);
    if before.Some? {
      var x := rest[before.value];
      assert x in rest;
      assert SameKey(x, rule);
      assert false;
    }
    assert Registered(rules, rule) == rest + [rule];
  }

  /** After registering `rule`, every conversion it does not match is looked up exactly as before. */
  lemma FindOtherAfterRegister(rules: seq<ConversionRule>, rule: ConversionRule, fromGame: string, toGame: string, category: ItemCategory)
    requires !Matches(rule, fromGame, toGame, category)
    ensures var before, after := FindRule(rules, fromGame, toGame, category), FindRule(Registered(rules, rule), fromGame, toGame, category);
            && before.Some? == after.Some?
            && (before.Some? ==> rules[before.value] == Registered(rules, rule)[after.value])
  {
    FindRuleWithoutKey(rules, rule, fromGame, toGame, category);
    FindRuleAppend(WithoutKey(rules, rule), rule, fromGame, toGame, category);
  }

  /** Without a matching rule the conversion returns its input. */
  lemma ConvertWithoutRule(rules: seq<ConversionRule>, p: BaseProperties, fromGame: string, toGame: string)
    requires forall i :: 0 <= i < |rules| ==> !Matches(rules[i], fromGame, toGame, p.category)
    ensures Converted(rules, p, fromGame, toGame) == p
  {
  }

  /**
   * What a rule does to properties: numeric entries with a rate are
   * multiplied, string entries whose value is mapped take the mapped value
   * (not mapped again), colours are replaced only when mapped, and nothing
   * else changes.
   */
  lemma ApplyRuleEffect(p: BaseProperties, rule: ConversionRule)
    ensures var q := ApplyRule(p, rule);
            && q.numericProperties.Keys == p.numericProperties.Keys
            && (forall k :: k in p.numericProperties && k in rule.numericConversionRates ==>
                  q.numericProperties[k] == p.numericProperties[k] * rule.numericConversionRates[k])
            && (forall k :: k in p.numericProperties && k !in rule.numericConversionRates ==>
                  q.numericProperties[k] == p.numericProperties[k])
            && q.stringProperties.Keys == p.stringProperties.Keys
            && (forall k :: k in p.stringProperties && p.stringProperties[k] in rule.propertyMappings ==>
                  q.stringProperties[k] == rule.propertyMappings[p.stringProperties[k]])
            && (forall k :: k in p.stringProperties && p.stringProperties[k] !in rule.propertyMappings ==>
                  q.stringProperties[k] == p.stringProperties[k])
            && (q.primaryColor != p.primaryColor ==> "Primary" in rule.colorMappings)
            && (q.secondaryColor != p.secondaryColor ==> "Secondary" in rule.colorMappings)
            && ("Primary" in rule.colorMappings ==> q.primaryColor == rule.colorMappings["Primary"])
            && ("Secondary" in rule.colorMappings ==> q.secondaryColor == rule.colorMappings["Secondary"])
            && q.(numericProperties := p.numericProperties, stringProperties := p.stringProperties,
                  primaryColor := p.primaryColor, secondaryColor := p.secondaryColor) == p
  {
  }

  /** Category, rarity, level, model, tags and both IDs are never changed by a conversion. */
  lemma ConvertKeepsIdentity(rules: seq<ConversionRule>, p: BaseProperties, fromGame: string, toGame: string)
    ensures var q := Converted(rules, p, fromGame, toGame);
            && q.category == p.category && q.rarity == p.rarity && q.level == p.level
            && q.modelIdentifier == p.modelIdentifier && q.tags == p.tags
            && q.ownerGlobalId == p.ownerGlobalId && q.targetPlayerId == p.targetPlayerId
  {
  }

  /** A Fantasy sword with fire damage 5 becomes a SciFi weapon with plasma damage 50 under the default table. */
  lemma DefaultRuleConvertsFireSword(p: BaseProperties)
    requires p.category == Weapon
    requires p.numericProperties == map["Damage" := 5.0]
    requires p.stringProperties == map["DamageType" := "Fire"]
    ensures var q := Converted([DefaultRule], p, "fantasy", "SCIFI");
            && q.numericProperties == map["Damage" := 50.0]
            && q.stringProperties == map["DamageType" := "Plasma"]
  {
    DefaultRuleMatches("fantasy", "SCIFI");
    FindRuleCons(DefaultRule, [], "fantasy", "SCIFI", Weapon);
    assert [DefaultRule] + [] == [DefaultRule];
    DefaultRuleScalesFireSword(p);
  }

  /** The default rule's game names match fantasy and SCIFI, ignoring case. */
  lemma DefaultRuleMatches(fromGame: string, toGame: string)
    requires fromGame == "fantasy" && toGame == "SCIFI"
    ensures Matches(DefaultRule, fromGame, toGame, Weapon)
  {
  }

  /** The default rule multiplies Damage by 10 and renames Fire to Plasma. */
  lemma DefaultRuleScalesFireSword(p: BaseProperties)
    requires p.numericProperties == map["Damage" := 5.0]
    requires p.stringProperties == map["DamageType" := "Fire"]
    ensures ApplyRule(p, DefaultRule).numericProperties == map["Damage" := 50.0]
    ensures ApplyRule(p, DefaultRule).stringProperties == map["DamageType" := "Plasma"]
  {
    FireSwordDamage(p.numericProperties, DefaultRule.numericConversionRates);
    FireSwordDamageType(p.stringProperties, DefaultRule.propertyMappings);
  }

  lemma FireSwordDamage(numbers: map<string, real>, rates: map<string, real>)
    requires numbers == map["Damage" := 5.0] && rates == map["Damage" := 10.0, "DurabilityPoints" := 2.0]
    ensures ScaledNumbers(numbers, rates) == map["Damage" := 50.0]
  {
    var scaled := ScaledNumbers(numbers, rates);
    assert scaled.Keys == {"Damage"} && scaled["Damage"] == 5.0 * 10.0;
  }

  lemma FireSwordDamageType(strings: map<string, string>, mappings: map<string, string>)
    requires strings == map["DamageType" := "Fire"] && mappings == map["Fire" := "Plasma", "Ice" := "Cryo", "Lightning" := "Electric"]
    ensures MappedStrings(strings, mappings) == map["DamageType" := "Plasma"]
  {
    var mapped := MappedStrings(strings, mappings);
    assert mapped.Keys == {"DamageType"} && mapped["DamageType"] == "Plasma";
  }

  /** UInterverseConversionSubsystem. */
  class ConversionSubsystem {
    /** ConversionRules. */
    var conversionRules: seq<ConversionRule>

    /** Initialize: the table holds the default rule and nothing else. */
    constructor Initialize()
      ensures conversionRules == [DefaultRule]
    {
      conversionRules := [];
      new;
      RegisterConversionRule(DefaultRule);
    }

    /** RegisterConversionRule: drop every rule for the same conversion, then append. */
    method RegisterConversionRule(rule: ConversionRule)
      modifies this
      ensures conversionRules == Registered(old(conversionRules), rule)
    {
      var rules := conversionRules;
      var kept: seq<ConversionRule> := [];
      var i := 0;
      assert rules[i..] == rules && [] + WithoutKey(rules, rule) == WithoutKey(rules, rule);
      while i < |rules|
        invariant 0 <= i <= |rules|
        invariant kept + WithoutKey(rules[i..], rule) == WithoutKey(rules, rule)
      {
        WithoutKeyStep(rules, i, rule);
        if !SameKey(rules[i], rule) {
          assert (kept + [rules[i]]) + WithoutKey(rules[i + 1..], rule) == kept + ([rules[i]] + WithoutKey(rules[i + 1..], rule));
          kept := kept + [rules[i]];
        } else {
          assert [] + WithoutKey(rules[i + 1..], rule) == WithoutKey(rules[i + 1..], rule);
        }
        i := i + 1;
      }
      assert rules[i..] == [] && kept + [] == kept;
      conversionRules := kept + [rule];
    }

    /** FindConversionRule: the position of the first matching rule, or none. */
    method FindConversionRule(fromGame: string, toGame: string, category: ItemCategory) returns (found: Option<nat>)
      ensures found == FindRule(conversionRules, fromGame, toGame, category)
    {
      var i := 0;
      while i < |conversionRules|
        invariant 0 <= i <= |conversionRules|
        invariant forall j :: 0 <= j < i ==> !Matches(conversionRules[j], fromGame, toGame, category)
      {
        if Matches(conversionRules[i], fromGame, toGame, category) {
          FindRuleIs(conversionRules, fromGame, toGame, category, Some(i));
          return Some(i);
        }
        i := i + 1;
      }
      FindRuleIs(conversionRules, fromGame, toGame, category, None);
      return None;
    }

    /** ConvertAsset up to the Blueprint hook. */
    method ConvertAsset(p: BaseProperties, fromGame: string, toGame: string) returns (converted: BaseProperties)
      ensures converted == Converted(conversionRules, p, fromGame, toGame)
    {
      converted := p;
      var found := FindConversionRule(fromGame, toGame, p.category);
      if found.Some? {
        var rule := conversionRules[found.value];
        var numbers := ScaleNumbers(converted.numericProperties, rule.numericConversionRates);
        var strings := MapStrings(converted.stringProperties, rule.propertyMappings);
        converted := converted.(numericProperties := numbers, stringProperties := strings);
        if "Primary" in rule.colorMappings {
          converted := converted.(primaryColor := rule.colorMappings["Primary"]);
        }
        if "Secondary" in rule.colorMappings {
          converted := converted.(secondaryColor := rule.colorMappings["Secondary"]);
        }
      }
    }
  }

  /** The numeric loop of ConvertAsset: every entry visited once, multiplied when the key has a rate. */
  method ScaleNumbers(numbers: map<string, real>, rates: map<string, real>) returns (scaled: map<string, real>)
    ensures scaled == ScaledNumbers(numbers, rates)
  {
    scaled := numbers;
    var pending := numbers.Keys;
    while pending != {}
      invariant pending <= numbers.Keys && scaled.Keys == numbers.Keys
      invariant forall k :: k in pending ==> scaled[k] == numbers[k]
      invariant forall k :: k in numbers && k !in pending ==> scaled[k] == ScaledNumbers(numbers, rates)[k]
      decreases pending
    {
      var k :| k in pending;
      if k in rates {
        scaled := scaled[k := scaled[k] * rates[k]];
      }
      pending := pending - {k};
    }
  }

  /** The string loop of ConvertAsset: every entry visited once, replaced when its value is mapped. */
  method MapStrings(strings: map<string, string>, mappings: map<string, string>) returns (mapped: map<string, string>)
    ensures mapped == MappedStrings(strings, mappings)
  {
    mapped := strings;
    var pending := strings.Keys;
    while pending != {}
      invariant pending <= strings.Keys && mapped.Keys == strings.Keys
      invariant forall k :: k in pending ==> mapped[k] == strings[k]
      invariant forall k :: k in strings && k !in pending ==> mapped[k] == MappedStrings(strings, mappings)[k]
      decreases pending
    {
      var k :| k in pending;
      if mapped[k] in mappings {
        mapped := mapped[k := mappings[mapped[k]]];
      }
      pending := pending - {k};
    }
  }
}
