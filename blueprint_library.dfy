/**
 * The static Blueprint helpers: property validation, the fixed Fantasy/SciFi
 * weapon converters, damage scaling, effect colours and the category name.
 */
module BlueprintLibrary {
  import opened Wrappers
  import opened Text
  import opened StandardTypes
  import opened Compatibility
  import Conversion

  /**
   * ValidateAssetProperties: valid properties that carry the numeric entry
   * their category requires (Damage for weapons, Defense for armour).
   */
  function ValidateAssetProperties(p: BaseProperties): (ok: bool)
    ensures ok ==> IsValid(p)
    ensures ok <==> && p.modelIdentifier != []
                    && (p.category == Weapon ==> "Damage" in p.numericProperties)
                    && (p.category == Armor ==> "Defense" in p.numericProperties)
  {
    if !IsValid(p) then false
    else
      match p.category
      case Weapon => "Damage" in p.numericProperties
      case Armor => "Defense" in p.numericProperties
      case _ => true
  }

  /** The string entries with DamageType renamed: `fromA` (ignoring case) to `toA`, else `fromB` to `toB`. */
  function RenameDamageType(strings: map<string, string>, fromA: string, toA: string, fromB: string, toB: string): (r: map<string, string>)
    ensures r.Keys == strings.Keys
    ensures forall k :: k in strings && k != "DamageType" ==> r[k] == strings[k]
    ensures "DamageType" in strings && EqualsIgnoreCase(strings["DamageType"], fromA) ==> r["DamageType"] == toA
    ensures ("DamageType" in strings && !EqualsIgnoreCase(strings["DamageType"], fromA)
             && EqualsIgnoreCase(strings["DamageType"], fromB)) ==> r["DamageType"] == toB
    ensures ("DamageType" in strings && !EqualsIgnoreCase(strings["DamageType"], fromA)
             && !EqualsIgnoreCase(strings["DamageType"], fromB)) ==> r == strings
  {
    if "DamageType" in strings then
      var damageType := strings["DamageType"];
      if EqualsIgnoreCase(damageType, fromA) then strings["DamageType" := toA]
      else if EqualsIgnoreCase(damageType, fromB) then strings["DamageType" := toB]
      else strings
    else strings
  }

  /** The numeric entries with Damage, when present, multiplied by `factor`. */
  function ScaleDamageEntry(numbers: map<string, real>, factor: real): (r: map<string, real>)
    ensures r.Keys == numbers.Keys
    ensures forall k :: k in numbers && k != "Damage" ==> r[k] == numbers[k]
  {
    if "Damage" in numbers then numbers["Damage" := numbers["Damage"] * factor] else numbers
  }

  /** ConvertFantasyToSciFiWeapon: Fire becomes Plasma, Ice becomes Cryo, damage is multiplied by ten. */
  function ConvertFantasyToSciFiWeapon(p: BaseProperties): (q: BaseProperties)
    ensures q.(stringProperties := p.stringProperties, numericProperties := p.numericProperties) == p
    ensures q.numericProperties.Keys == p.numericProperties.Keys && q.stringProperties.Keys == p.stringProperties.Keys
    ensures "Damage" in p.numericProperties ==> q.numericProperties["Damage"] == ScaleDamageValue(p.numericProperties["Damage"], "Fantasy", "SciFi")
    ensures "DamageType" in p.stringProperties && EqualsIgnoreCase(p.stringProperties["DamageType"], "Fire") ==>
              q.stringProperties["DamageType"] == "Plasma"
    ensures "DamageType" in p.stringProperties && EqualsIgnoreCase(p.stringProperties["DamageType"], "Ice") ==>
              q.stringProperties["DamageType"] == "Cryo"
    ensures !("DamageType" in p.stringProperties && EqualsIgnoreCase(p.stringProperties["DamageType"], "Fire"))
            && !("DamageType" in p.stringProperties && EqualsIgnoreCase(p.stringProperties["DamageType"], "Ice")) ==>
              q.stringProperties == p.stringProperties
  {
    p.(stringProperties := RenameDamageType(p.stringProperties, "Fire", "Plasma", "Ice", "Cryo"),
       numericProperties := ScaleDamageEntry(p.numericProperties, 10.0))
  }

  /** ConvertSciFiToFantasyWeapon: Plasma becomes Fire, Cryo becomes Ice, damage is divided by ten. */
  function ConvertSciFiToFantasyWeapon(p: BaseProperties): (q: BaseProperties)
    ensures q.(stringProperties := p.stringProperties, numericProperties := p.numericProperties) == p
    ensures q.numericProperties.Keys == p.numericProperties.Keys && q.stringProperties.Keys == p.stringProperties.Keys
    ensures "Damage" in p.numericProperties ==> q.numericProperties["Damage"] == ScaleDamageValue(p.numericProperties["Damage"], "SciFi", "Fantasy")
    ensures "DamageType" in p.stringProperties && EqualsIgnoreCase(p.stringProperties["DamageType"], "Plasma") ==>
              q.stringProperties["DamageType"] == "Fire"
    ensures "DamageType" in p.stringProperties && EqualsIgnoreCase(p.stringProperties["DamageType"], "Cryo") ==>
              q.stringProperties["DamageType"] == "Ice"
    ensures !("DamageType" in p.stringProperties && EqualsIgnoreCase(p.stringProperties["DamageType"], "Plasma"))
            && !("DamageType" in p.stringProperties && EqualsIgnoreCase(p.stringProperties["DamageType"], "Cryo")) ==>
              q.stringProperties == p.stringProperties
  {
    p.(stringProperties := RenameDamageType(p.stringProperties, "Plasma", "Fire", "Cryo", "Ice"),
       numericProperties := ScaleDamageEntry(p.numericProperties, 0.1))
  }

  /** ScaleDamageValue: times ten from Fantasy to SciFi, a tenth back, unchanged for any other pair. */
  function ScaleDamageValue(damage: real, fromGame: string, toGame: string): (r: real)
    ensures (!(EqualsIgnoreCase(fromGame, "Fantasy") && EqualsIgnoreCase(toGame, "SciFi"))
             && !(EqualsIgnoreCase(fromGame, "SciFi") && EqualsIgnoreCase(toGame, "Fantasy"))) ==> r == damage
    ensures damage == 0.0 ==> r == 0.0
  {
    if EqualsIgnoreCase(fromGame, "Fantasy") && EqualsIgnoreCase(toGame, "SciFi") then damage * 10.0
    else if EqualsIgnoreCase(fromGame, "SciFi") && EqualsIgnoreCase(toGame, "Fantasy") then damage * 0.1
    else damage
  }

  /** ConvertEffectColor: a fixed colour for fire, ice and plasma effects, keeping the input's alpha. */
  function ConvertEffectColor(color: LinearColor, effectType: string): (r: LinearColor)
    ensures r.a == color.a
    ensures (!EqualsIgnoreCase(effectType, "Fire") && !EqualsIgnoreCase(effectType, "Ice")
             && !EqualsIgnoreCase(effectType, "Plasma")) ==> r == color
  {
    if EqualsIgnoreCase(effectType, "Fire") then LinearColor(1.0, 0.2, 0.0, color.a)
    else if EqualsIgnoreCase(effectType, "Ice") then LinearColor(0.0, 0.8, 1.0, color.a)
    else if EqualsIgnoreCase(effectType, "Plasma") then LinearColor(0.6, 0.0, 1.0, color.a)
    else color
  }

  /** GetAssetTypeString: the wire name of the category, which names it back. */
  function GetAssetTypeString(category: ItemCategory): (name: string)
    ensures CategoryFromName(name) == Some(category)
  {
    CategoryNameRoundTrip(category);
    ConvertItemCategory(category)
  }

  /** The effect colours of fire, ice and plasma depend on the effect alone, apart from alpha. */
  lemma EffectColorIgnoresInput(a: LinearColor, b: LinearColor, effectType: string)
    requires EqualsIgnoreCase(effectType, "Fire") || EqualsIgnoreCase(effectType, "Ice") || EqualsIgnoreCase(effectType, "Plasma")
    ensures ConvertEffectColor(a, effectType) == ConvertEffectColor(b, effectType).(a := a.a)
  {
  }

  /** Scaling from Fantasy to SciFi and back gives the original damage (in exact arithmetic). */
  lemma ScaleDamageRoundTrip(damage: real)
    ensures ScaleDamageValue(ScaleDamageValue(damage, "Fantasy", "SciFi"), "SciFi", "Fantasy") == damage
  {
    FantasySciFiDistinct();
  }

  /** The two game names, and the four damage types, are pairwise different even ignoring case. */
  lemma FantasySciFiDistinct()
    ensures !EqualsIgnoreCase("Fantasy", "SciFi") && !EqualsIgnoreCase("SciFi", "Fantasy")
    ensures EqualsIgnoreCase("Fantasy", "Fantasy") && EqualsIgnoreCase("SciFi", "SciFi")
    ensures !EqualsIgnoreCase("Plasma", "Fire") && !EqualsIgnoreCase("Plasma", "Ice")
    ensures !EqualsIgnoreCase("Cryo", "Fire") && !EqualsIgnoreCase("Cryo", "Ice")
    ensures !EqualsIgnoreCase("Fire", "Plasma") && !EqualsIgnoreCase("Fire", "Cryo")
    ensures !EqualsIgnoreCase("Ice", "Plasma") && !EqualsIgnoreCase("Ice", "Cryo")
    ensures EqualsIgnoreCase("Fire", "Fire") && EqualsIgnoreCase("Ice", "Ice")
    ensures EqualsIgnoreCase("Plasma", "Plasma") && EqualsIgnoreCase("Cryo", "Cryo")
  {
    assert LowerAscii("Cryo"[0]) != LowerAscii("Fire"[0]);
  }

  /**
   * Renaming the damage type Fantasy-to-SciFi and back restores it up to
   * letter case when it was not a SciFi type, exactly when spelt Fire or Ice
   * or not a Fantasy type at all; other entries are untouched.
   */
  lemma {:induction false} DamageTypeRoundTrip(strings: map<string, string>)
    requires "DamageType" in strings ==>
               !EqualsIgnoreCase(strings["DamageType"], "Plasma") && !EqualsIgnoreCase(strings["DamageType"], "Cryo")
    ensures var back := RenameDamageType(RenameDamageType(strings, "Fire", "Plasma", "Ice", "Cryo"), "Plasma", "Fire", "Cryo", "Ice");
            && back.Keys == strings.Keys
            && (forall k :: k in strings && k != "DamageType" ==> back[k] == strings[k])
            && ("DamageType" in strings ==> EqualsIgnoreCase(back["DamageType"], strings["DamageType"]))
            && ("DamageType" in strings && strings["DamageType"] in {"Fire", "Ice"} ==> back == strings)
            && (("DamageType" in strings && !EqualsIgnoreCase(strings["DamageType"], "Fire")
                 && !EqualsIgnoreCase(strings["DamageType"], "Ice")) ==> back == strings)
  {
    FantasySciFiDistinct();
    if "DamageType" in strings {
      var t := strings["DamageType"];
      if EqualsIgnoreCase(t, "Fire") {
        EqualsIgnoreCaseIsEquivalence(t, "Fire", "Fire");
      } else if EqualsIgnoreCase(t, "Ice") {
        EqualsIgnoreCaseIsEquivalence(t, "Ice", "Ice");
      } else {
        EqualsIgnoreCaseIsEquivalence(t, t, t);
      }
    }
  }

  /**
   * SciFi-to-Fantasy after Fantasy-to-SciFi restores a weapon whose damage
   * type is not a SciFi one: damage exactly, the damage type up to letter
   * case (exactly when spelt Fire or Ice, or when not a Fantasy type at all),
   * and everything else unchanged.
   */
  lemma WeaponRoundTrip(p: BaseProperties)
    requires "DamageType" in p.stringProperties ==>
               !EqualsIgnoreCase(p.stringProperties["DamageType"], "Plasma") && !EqualsIgnoreCase(p.stringProperties["DamageType"], "Cryo")
    ensures var q := ConvertSciFiToFantasyWeapon(ConvertFantasyToSciFiWeapon(p));
            && q.numericProperties == p.numericProperties
            && q.(stringProperties := p.stringProperties) == p.(stringProperties := p.stringProperties)
            && ("DamageType" in p.stringProperties ==> EqualsIgnoreCase(q.stringProperties["DamageType"], p.stringProperties["DamageType"]))
            && (("DamageType" !in p.stringProperties || p.stringProperties["DamageType"] in {"Fire", "Ice"}) ==> q == p)
  {
    DamageTypeRoundTrip(p.stringProperties);
    var q := ConvertSciFiToFantasyWeapon(ConvertFantasyToSciFiWeapon(p));
    assert q.numericProperties == p.numericProperties;
  }

  /**
   * The fixed converter and the default conversion rule agree on damage and on
   * a Fire or Ice damage type; the rule also rewrites other string entries
   * and durability, which the fixed converter leaves alone.
   */
  lemma FixedConverterAgreesWithDefaultRule(p: BaseProperties)
    ensures var fixed, table := ConvertFantasyToSciFiWeapon(p), Conversion.ApplyRule(p, Conversion.DefaultRule);
            && ("Damage" in p.numericProperties ==> fixed.numericProperties["Damage"] == table.numericProperties["Damage"])
            && ("DamageType" in p.stringProperties && p.stringProperties["DamageType"] in {"Fire", "Ice"} ==>
                  fixed.stringProperties["DamageType"] == table.stringProperties["DamageType"])
  {
    FixedAgreesOnDamage(p);
    FixedAgreesOnDamageType(p);
  }

  lemma FixedAgreesOnDamage(p: BaseProperties)
    ensures "Damage" in p.numericProperties ==>
              ConvertFantasyToSciFiWeapon(p).numericProperties["Damage"]
              == Conversion.ApplyRule(p, Conversion.DefaultRule).numericProperties["Damage"]
  {
    FantasySciFiDistinct();
  }

  lemma FixedAgreesOnDamageType(p: BaseProperties)
    ensures "DamageType" in p.stringProperties && p.stringProperties["DamageType"] in {"Fire", "Ice"} ==>
              ConvertFantasyToSciFiWeapon(p).stringProperties["DamageType"]
              == Conversion.ApplyRule(p, Conversion.DefaultRule).stringProperties["DamageType"]
  {
    if "DamageType" in p.stringProperties {
      var t := p.stringProperties["DamageType"];
      if t == "Fire" {
        EqualsIgnoreCaseIsEquivalence(t, t, t);
      } else if t == "Ice" {
        EqualsIgnoreCaseIsEquivalence(t, t, t);
        assert !EqualsIgnoreCase(t, "Fire") by { assert |t| != |"Fire"|; }
      }
    }
  }

  /** A valid weapon validates once it carries a damage entry, and never without one. */
  lemma WeaponNeedsDamage(p: BaseProperties, damage: real)
    requires p.category == Weapon && IsValid(p)
    ensures !ValidateAssetProperties(p.(numericProperties := p.numericProperties - {"Damage"}))
    ensures ValidateAssetProperties(p.(numericProperties := p.numericProperties["Damage" := damage]))
  {
  }
}
